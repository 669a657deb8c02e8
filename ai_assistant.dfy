/**
 * The writing assistant panel: a prompt box whose "Generate" action sends the
 * prompt to the generation endpoint and hands any text that comes back to the
 * editor. A request is split into its two halves, `Submit` (up to the call)
 * and `Complete` (the endpoint's answer), so the in-flight state is visible.
 */
module AIAssistant {
  import opened Common
  import opened Text
  import opened ErrorHandler
  import opened GenerateStory

  /** The body `supabase.functions.invoke("generate-story", ...)` sends. */
  datatype InvokeBody = InvokeBody(prompt: string, tone: string, projectId: string, chapterId: string)

  /** What the endpoint call gave back: an error, or data whose `text` may be absent. */
  datatype InvokeReply = Failed(error: ErrorInfo) | Returned(text: Option<string>)

  /** A toast: a success or an error notice with its text. */
  datatype Notice = Success(text: string) | Failure(text: string)

  const EmptyPromptNotice := "Please enter a prompt"
  const GeneratedNotice := "Content generated!"

  /** `prompt.trim()` is truthy: something other than whitespace was typed. */
  predicate HasPrompt(prompt: string): (r: bool)
    ensures r <==> !AllWhitespace(prompt)
  {
    Trim(prompt) != ""
  }

  /** The body as the endpoint's schema sees it: every field a string. */
  function AsBody(b: InvokeBody): Body
  {
    Body(Some(b.prompt), Some(b.tone), Some(b.projectId), Some(b.chapterId))
  }

  class Assistant {
    var prompt: string
    var generating: bool

    constructor ()
      ensures prompt == "" && !generating
    {
      prompt := "";
      generating := false;
    }

    /**
     * The first half of `handleGenerate`. A blank prompt only raises a notice;
     * otherwise the panel starts generating and sends the prompt as typed,
     * untrimmed, with the project's tone and the open chapter's id.
     */
    method Submit(tone: string, projectId: string, chapterId: string)
      returns (sent: Option<InvokeBody>, notice: Option<Notice>)
      modifies this
      ensures sent.None? <==> !HasPrompt(old(prompt))
      ensures sent.None? ==> notice == Some(Failure(EmptyPromptNotice)) && generating == old(generating)
      ensures sent.Some? ==> sent.value == InvokeBody(old(prompt), tone, projectId, chapterId) && notice.None? && generating
      ensures prompt == old(prompt)
    {
      if Trim(prompt) == "" {
        return None, Some(Failure(EmptyPromptNotice));
      }
      generating := true;
      sent := Some(InvokeBody(prompt, tone, projectId, chapterId));
      notice := None;
    }

    /**
     * The second half: the answer arrives. Non-empty text is handed on once and
     * clears the prompt; an error raises the classifier's sentence; the panel
     * stops generating in every case.
     */
    method Complete(reply: InvokeReply) returns (emitted: Option<string>, notice: Option<Notice>)
      modifies this
      ensures !generating
      ensures emitted.Some? <==> reply.Returned? && reply.text.Some? && reply.text.value != ""
      ensures emitted.Some? ==> emitted == reply.text && prompt == "" && notice == Some(Success(GeneratedNotice))
      ensures emitted.None? ==> prompt == old(prompt)
      ensures reply.Failed? ==> notice == Some(Failure(UserFriendlyError(reply.error)))
      ensures reply.Returned? && emitted.None? ==> notice.None?
    {
      emitted := None;
      notice := None;
      match reply {
        case Failed(error) =>
          notice := Some(Failure(UserFriendlyError(error)));
        case Returned(text) =>
          if text.Some? && text.value != "" {
            emitted := text;
            prompt := "";
            notice := Some(Success(GeneratedNotice));
          }
      }
      generating := false;
    }
  }

  // ------------------------------------------------------------ properties

  /**
   * The guard is the lower half of the endpoint's prompt rule: every prompt the
   * endpoint accepts passes it, and a prompt that passes it is accepted unless
   * it is over the length limit once trimmed.
   */
  lemma GuardAgreesWithSchema(b: InvokeBody)
    ensures FieldValid(AsBody(b), PromptField) ==> HasPrompt(b.prompt)
    ensures HasPrompt(b.prompt) && |Trim(b.prompt)| <= MaxPromptLength ==> FieldValid(AsBody(b), PromptField)
  {
  }

  /** A prompt that passes the guard still passes it with whitespace typed around it. */
  lemma PaddedPromptStillPasses(prompt: string, lead: string, trail: string)
    requires AllWhitespace(lead) && AllWhitespace(trail)
    requires HasPrompt(prompt)
    ensures HasPrompt(lead + prompt + trail)
  {
    var k :| 0 <= k < |prompt| && !IsWhitespace(prompt[k]);
    var s := lead + prompt + trail;
    assert s[|lead| + k] == prompt[k];
  }
}
