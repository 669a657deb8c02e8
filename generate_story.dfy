/**
 * The `generate-story` edge function: the authoritative gate in front of the
 * text-generation gateway. One invocation runs a fixed chain of checks and stops
 * at the first that fails: authentication, body schema, profile read, credit
 * quota, project ownership, gateway call; only after a successful call does it
 * charge one credit and append one usage-log row.
 *
 * The authentication service, the database and the gateway are inputs: the
 * session table and the `profiles`/`projects`/`prompts_log` tables are fields of
 * `Gate`, and every other answer (a failed read, a missing key, the gateway's
 * reply, a failed write) comes in through `Env`.
 */
module GenerateStory {
  import opened Common
  import opened Text
  import opened Profiles

  type UserId = string
  type ProjectId = string

  const MaxPromptLength := 2000
  const MaxToneLength := 50
  const ModelName := "google/gemini-2.5-flash"
  const PromptType := "story_generation"
  const BearerPrefix := "Bearer "

  // ------------------------------------------------------------ request schema

  /** The JSON body as parsed; `None` is a field that is absent or not a string. */
  datatype Body = Body(prompt: Option<string>, tone: Option<string>, projectId: Option<string>, chapterId: Option<string>)

  /** A body that passed the schema, with `prompt` and `tone` already trimmed. */
  datatype Request = Request(prompt: string, tone: string, projectId: ProjectId, chapterId: string)

  datatype Field = PromptField | ToneField | ProjectIdField | ChapterIdField

  predicate IsHexDigit(c: char)
  {
    ('0' <= c <= '9') || ('a' <= c <= 'f') || ('A' <= c <= 'F')
  }

  /** The 8-4-4-4-12 hexadecimal text form of a UUID (section 3 of RFC 4122), either case. */
  predicate IsUuid(s: string)
  {
    && |s| == 36
    && forall i :: 0 <= i < 36 ==>
         if i == 8 || i == 13 || i == 18 || i == 23 then s[i] == '-' else IsHexDigit(s[i])
  }

  /** `z.string().trim().min(1).max(max)`. */
  predicate TrimmedLengthWithin(v: Option<string>, max: nat)
  {
    v.Some? && 1 <= |Trim(v.value)| <= max
  }

  /** `z.string().uuid()`. */
  predicate UuidString(v: Option<string>)
  {
    v.Some? && IsUuid(v.value)
  }

  predicate FieldValid(b: Body, f: Field)
  {
    match f
    case PromptField => TrimmedLengthWithin(b.prompt, MaxPromptLength)
    case ToneField => TrimmedLengthWithin(b.tone, MaxToneLength)
    case ProjectIdField => UuidString(b.projectId)
    case ChapterIdField => UuidString(b.chapterId)
  }

  /** The fields the schema rejects, in declaration order (the paths of the `details` issues). */
  function FieldErrors(b: Body): seq<Field>
  {
    (if FieldValid(b, PromptField) then [] else [PromptField])
    + (if FieldValid(b, ToneField) then [] else [ToneField])
    + (if FieldValid(b, ProjectIdField) then [] else [ProjectIdField])
    + (if FieldValid(b, ChapterIdField) then [] else [ChapterIdField])
  }

  lemma FieldErrorsAreTheInvalidFields(b: Body)
    ensures forall f :: f in FieldErrors(b) <==> !FieldValid(b, f)
  {
    var p := if FieldValid(b, PromptField) then [] else [PromptField];
    var t := if FieldValid(b, ToneField) then [] else [ToneField];
    var i := if FieldValid(b, ProjectIdField) then [] else [ProjectIdField];
    var c := if FieldValid(b, ChapterIdField) then [] else [ChapterIdField];
    assert FieldErrors(b) == p + t + i + c;
    forall f ensures f in FieldErrors(b) <==> !FieldValid(b, f) {
      assert f in p + t + i + c <==> f in p || f in t || f in i || f in c;
    }
  }

  /** `requestSchema.safeParse`: accepted exactly when every field is valid; the accepted prompt and tone are trimmed. */
  function Validate(b: Body): (r: Result<Request, seq<Field>>)
    ensures r.Ok? <==>
      && TrimmedLengthWithin(b.prompt, MaxPromptLength) && TrimmedLengthWithin(b.tone, MaxToneLength)
      && UuidString(b.projectId) && UuidString(b.chapterId)
    ensures r.Ok? ==>
      && r.value.prompt == Trim(b.prompt.value) && 1 <= |r.value.prompt| <= MaxPromptLength
      && r.value.tone == Trim(b.tone.value) && 1 <= |r.value.tone| <= MaxToneLength
      && r.value.projectId == b.projectId.value && IsUuid(r.value.projectId)
      && r.value.chapterId == b.chapterId.value && IsUuid(r.value.chapterId)
    ensures r.Err? ==> r.error != [] && forall f :: f in r.error <==> !FieldValid(b, f)
  {
    var errors := FieldErrors(b);
    FieldErrorsAreTheInvalidFields(b);
    if errors == [] then
      assert FieldValid(b, PromptField) && FieldValid(b, ToneField);
      assert FieldValid(b, ProjectIdField) && FieldValid(b, ChapterIdField);
      Ok(Request(Trim(b.prompt.value), Trim(b.tone.value), b.projectId.value, b.chapterId.value))
    else
      Err(errors)
  }

  // ------------------------------------------------------------ authentication

  /** `s.replace(pattern, "")` with a string pattern: only the first occurrence goes. */
  function RemoveFirst(s: string, pattern: string): (r: string)
    requires pattern != []
    ensures pattern <= s ==> r == s[|pattern|..]
    ensures !Contains(s, pattern) ==> r == s
    ensures Contains(s, pattern) ==> |r| == |s| - |pattern|
  {
    if pattern <= s then s[|pattern|..]
    else if s == [] then []
    else [s[0]] + RemoveFirst(s[1..], pattern)
  }

  /** `pattern` occurs in `s` at index `m`. */
  predicate OccursAt(s: string, pattern: string, m: int)
  {
    0 <= m <= |s| && pattern <= s[m..]
  }

  /** `pattern` occurs in `s` at index `k`, and at no index before it. */
  predicate FirstOccurrence(s: string, pattern: string, k: int)
  {
    && k <= |s| - |pattern| && OccursAt(s, pattern, k)
    && forall m :: 0 <= m < k ==> !OccursAt(s, pattern, m)
  }

  /** A first occurrence past the start is the first occurrence in the tail, one index earlier. */
  lemma FirstOccurrenceInTail(s: string, pattern: string, k: int)
    requires FirstOccurrence(s, pattern, k) && k > 0
    ensures !(pattern <= s) && FirstOccurrence(s[1..], pattern, k - 1)
  {
    assert !OccursAt(s, pattern, 0) && s[0..] == s;
    var t := s[1..];
    forall m | 0 <= m < k - 1 ensures !OccursAt(t, pattern, m) {
      assert !OccursAt(s, pattern, m + 1) && t[m..] == s[m + 1..];
    }
    assert t[k - 1..] == s[k..];
  }

  /** Where the pattern first occurs, that one occurrence is cut out and the rest is kept. */
  lemma {:induction false} RemoveFirstCutsFirstOccurrence(s: string, pattern: string, k: int)
    requires pattern != [] && FirstOccurrence(s, pattern, k)
    ensures RemoveFirst(s, pattern) == s[..k] + s[k + |pattern|..]
    decreases k
  {
    if k == 0 {
      assert s[..0] + s[|pattern|..] == s[|pattern|..];
    } else {
      FirstOccurrenceInTail(s, pattern, k);
      var t := s[1..];
      assert RemoveFirst(s, pattern) == [s[0]] + RemoveFirst(t, pattern);
      RemoveFirstCutsFirstOccurrence(t, pattern, k - 1);
      CutAfterHead(s, k, k + |pattern|);
    }
  }

  /** Cutting `s[i..j]` out of `s` is keeping the head and cutting one index earlier in the tail. */
  lemma CutAfterHead(s: string, i: int, j: int)
    requires 0 < i <= j <= |s|
    ensures [s[0]] + (s[1..][..i - 1] + s[1..][j - 1..]) == s[..i] + s[j..]
  {
    assert s[1..][..i - 1] == s[1..i];
    assert s[1..][j - 1..] == s[j..];
    assert [s[0]] + s[1..i] == s[..i];
  }

  /** The token handed to the authentication service. */
  function Token(header: string): string
  {
    RemoveFirst(header, BearerPrefix)
  }

  /**
   * The authenticated caller: none when the header is absent or empty, when the
   * service fails, or when the token names no session.
   */
  function Caller(header: Option<string>, sessions: map<string, UserId>, authFails: bool): (r: Option<UserId>)
    ensures r.Some? ==> header.Some? && Token(header.value) in sessions && r.value == sessions[Token(header.value)]
    ensures r.None? <==> header.None? || header.value == "" || authFails || Token(header.value) !in sessions
  {
    if header.None? || header.value == "" || authFails then None
    else if Token(header.value) in sessions then Some(sessions[Token(header.value)])
    else None
  }

  lemma BearerTokenIsStripped(token: string)
    ensures Token(BearerPrefix + token) == token
  {
  }

  // ------------------------------------------------------------ collaborators

  /** What the gateway call produced. */
  datatype Gateway =
    | Unreachable              // `fetch` threw
    | Rejected(status: int)    // a non-OK HTTP status
    | Unparsable               // an OK status whose body is not JSON
    | Replied(content: Option<string>)  // `choices[0].message.content`, if any

  /** Every answer of an external collaborator during one invocation. */
  datatype Env = Env(
    authFails: bool,
    profileReadFails: bool,
    projectReadFails: bool,
    apiKey: Option<string>,
    gateway: Gateway,
    counterWriteFails: bool,
    logWriteFails: bool)

  /** An incoming HTTP request; `body` is `None` when it is not JSON. */
  datatype HttpRequest = HttpRequest(verb: string, authorization: Option<string>, body: Option<Body>)

  /** The chat-completion request sent to the gateway. */
  datatype GatewayCall = GatewayCall(model: string, system: string, user: string)

  datatype LogEntry = LogEntry(
    userId: UserId,
    projectId: ProjectId,
    promptType: string,
    inputPrompt: string,
    outputText: string,
    modelUsed: string)

  /** The `error` strings of the handler's JSON error bodies. */
  datatype ErrorKind = Unauthorized | InvalidRequestData | SubscriptionCheckFailed
                     | CreditLimitReached | ProjectAccessDenied | GenerationFailed

  function ErrorText(k: ErrorKind): string
  {
    match k
    case Unauthorized => "Unauthorized"
    case InvalidRequestData => "Invalid request data"
    case SubscriptionCheckFailed => "Failed to verify subscription"
    case CreditLimitReached => "Credit limit reached"
    case ProjectAccessDenied => "Project not found or access denied"
    case GenerationFailed => "An error occurred while generating content"
  }

  datatype ResponseBody =
    | NoBody
    | TextBody(text: string)
    | ErrorBody(error: ErrorKind, message: Option<string>, details: seq<Field>)

  datatype Response = Response(status: int, body: ResponseBody)

  /** Why an invocation ended in the catch-all handler. */
  datatype Crash = BodyNotJson | MissingApiKey | GatewayFailed

  /** How one invocation ends. */
  datatype Outcome =
    | Preflight
    | Unauthenticated
    | Invalid(fields: seq<Field>)
    | ProfileUnavailable
    | CreditsExhausted(allowed: int)
    | AccessDenied
    | Crashed(reason: Crash)
    | Generated(user: UserId, request: Request, used: int, text: string)

  const PersonaOpening: string := "You are StoryForge, an expert creative writing assistant specialized in "
  const PersonaClosing: string :=
    "-style storytelling. \nCreate engaging, vivid prose that captures character emotions and maintains narrative momentum. \nFocus on showing rather than telling, with rich sensory details and compelling dialogue."

  /** The persona with the project's tone set in verbatim between its two fixed parts. */
  function SystemPrompt(tone: string): (r: string)
    ensures |r| == |PersonaOpening| + |tone| + |PersonaClosing|
    ensures r[..|PersonaOpening|] == PersonaOpening && r[|r| - |PersonaClosing|..] == PersonaClosing
    ensures r[|PersonaOpening|..|r| - |PersonaClosing|] == tone
  {
    PersonaOpening + tone + PersonaClosing
  }

  /** Two tones never share a system prompt: the gateway is told the tone that was requested. */
  lemma SystemPromptIdentifiesTone(t1: string, t2: string)
    requires SystemPrompt(t1) == SystemPrompt(t2)
    ensures t1 == t2
  {
  }

  function CallFor(r: Request): GatewayCall
  {
    GatewayCall(ModelName, SystemPrompt(r.tone), r.prompt)
  }

  /** `content || ''`. */
  function GeneratedText(content: Option<string>): (r: string)
    ensures r == "" <==> content.None? || content.value == ""
    ensures r != "" ==> content == Some(r)
  {
    if content.Some? then content.value else ""
  }

  function CreditMessage(allowed: int): string
  {
    "You've used all " + IntToString(allowed) + " credits this month. Upgrade to get more!"
  }

  /** The project lookup succeeds and names the caller as owner. */
  predicate OwnedBy(owners: map<ProjectId, UserId>, project: ProjectId, user: UserId, readFails: bool)
  {
    !readFails && project in owners && owners[project] == user
  }

  predicate HasApiKey(env: Env)
  {
    env.apiKey.Some? && env.apiKey.value != ""
  }

  // ------------------------------------------------------------ the decision

  /** The caller is known and the body passed the schema: the chain goes on to the profile read. */
  predicate Admitted(sessions: map<string, UserId>, req: HttpRequest, env: Env)
  {
    && req.verb != "OPTIONS"
    && Caller(req.authorization, sessions, env.authFails).Some?
    && req.body.Some? && Validate(req.body.value).Ok?
  }

  /** The ordered chain of checks of one invocation; the first failing check decides. */
  function Decide(sessions: map<string, UserId>, profiles: map<UserId, ProfileRow>,
                  owners: map<ProjectId, UserId>, req: HttpRequest, env: Env): (o: Outcome)
    ensures o.Preflight? <==> req.verb == "OPTIONS"
    ensures o.Unauthenticated? <==>
      req.verb != "OPTIONS" && Caller(req.authorization, sessions, env.authFails).None?
    ensures o == Crashed(BodyNotJson) <==>
      req.verb != "OPTIONS" && Caller(req.authorization, sessions, env.authFails).Some? && req.body.None?
    ensures o.Invalid? <==>
      && req.verb != "OPTIONS" && Caller(req.authorization, sessions, env.authFails).Some?
      && req.body.Some? && Validate(req.body.value).Err?
    ensures o.Invalid? ==> Validate(req.body.value) == Err(o.fields)
    ensures Admitted(sessions, req, env) ==>
      o == AfterValidation(profiles, owners, Caller(req.authorization, sessions, env.authFails).value,
                           Validate(req.body.value).value, env)
  {
    if req.verb == "OPTIONS" then Preflight
    else
      var caller := Caller(req.authorization, sessions, env.authFails);
      if caller.None? then Unauthenticated
      else if req.body.None? then Crashed(BodyNotJson)
      else
        var v := Validate(req.body.value);
        if v.Err? then Invalid(v.error)
        else AfterValidation(profiles, owners, caller.value, v.value, env)
  }

  /** The profile was read and its counter is still below its quota. */
  predicate CreditLeft(profiles: map<UserId, ProfileRow>, user: UserId, env: Env)
  {
    !env.profileReadFails && user in profiles && ChaptersUsed(profiles[user]) < ChapterQuota(profiles[user])
  }

  /**
   * The steps of the chain once the caller is known and the body is valid:
   * profile read, quota, ownership, API key, gateway. Each outcome occurs
   * exactly when every earlier step passed and its own step failed.
   */
  function AfterValidation(profiles: map<UserId, ProfileRow>, owners: map<ProjectId, UserId>,
                           user: UserId, request: Request, env: Env): (o: Outcome)
    ensures !o.Preflight? && !o.Unauthenticated? && !o.Invalid? && o != Crashed(BodyNotJson)
    ensures o.ProfileUnavailable? <==> env.profileReadFails || user !in profiles
    ensures o.CreditsExhausted? <==>
      !env.profileReadFails && user in profiles && ChaptersUsed(profiles[user]) >= ChapterQuota(profiles[user])
    ensures o.CreditsExhausted? ==> o.allowed == ChapterQuota(profiles[user])
    ensures o.AccessDenied? <==>
      CreditLeft(profiles, user, env) && !OwnedBy(owners, request.projectId, user, env.projectReadFails)
    ensures o == Crashed(MissingApiKey) <==>
      && CreditLeft(profiles, user, env) && OwnedBy(owners, request.projectId, user, env.projectReadFails)
      && !HasApiKey(env)
    ensures o == Crashed(GatewayFailed) <==>
      && CreditLeft(profiles, user, env) && OwnedBy(owners, request.projectId, user, env.projectReadFails)
      && HasApiKey(env) && !env.gateway.Replied?
    ensures o.Generated? <==>
      && CreditLeft(profiles, user, env) && OwnedBy(owners, request.projectId, user, env.projectReadFails)
      && HasApiKey(env) && env.gateway.Replied?
    ensures o.Generated? ==>
      && o.user == user && o.request == request
      && o.used == ChaptersUsed(profiles[user]) && o.text == GeneratedText(env.gateway.content)
  {
    if env.profileReadFails || user !in profiles then ProfileUnavailable
    else
      var p := profiles[user];
      if ChaptersUsed(p) >= ChapterQuota(p) then CreditsExhausted(ChapterQuota(p))
      else if !OwnedBy(owners, request.projectId, user, env.projectReadFails) then AccessDenied
      else if !HasApiKey(env) then Crashed(MissingApiKey)
      else if !env.gateway.Replied? then Crashed(GatewayFailed)
      else Generated(user, request, ChaptersUsed(p), GeneratedText(env.gateway.content))
  }

  /** The HTTP response for each outcome; no failure carries text from a collaborator. */
  function Render(o: Outcome): (r: Response)
    ensures r.status == 200 <==> o.Preflight? || o.Generated?
    ensures r.body.TextBody? <==> o.Generated?
    ensures o.Generated? ==> r.body.text == o.text
    ensures r.body.ErrorBody? ==> (r.body.message.Some? <==> o.CreditsExhausted?)
  {
    match o
    case Preflight => Response(200, NoBody)
    case Unauthenticated => Response(401, ErrorBody(Unauthorized, None, []))
    case Invalid(fields) => Response(400, ErrorBody(InvalidRequestData, None, fields))
    case ProfileUnavailable => Response(500, ErrorBody(SubscriptionCheckFailed, None, []))
    case CreditsExhausted(allowed) =>
      Response(403, ErrorBody(CreditLimitReached, Some(CreditMessage(allowed)), []))
    case AccessDenied => Response(403, ErrorBody(ProjectAccessDenied, None, []))
    case Crashed(_) => Response(500, ErrorBody(GenerationFailed, None, []))
    case Generated(_, _, _, text) => Response(200, TextBody(text))
  }

  /** `credits_used_this_month: creditsUsed + 1` on the caller's row; nothing else changes. */
  function Charge(profiles: map<UserId, ProfileRow>, user: UserId, used: int): (r: map<UserId, ProfileRow>)
    requires user in profiles
    ensures r.Keys == profiles.Keys
    ensures ChaptersUsed(r[user]) == used + 1
    ensures r[user] == profiles[user].(creditsUsed := r[user].creditsUsed)
    ensures forall u :: u in profiles && u != user ==> r[u] == profiles[u]
  {
    profiles[user := profiles[user].(creditsUsed := Some(used + 1))]
  }

  function EntryFor(o: Outcome): LogEntry
    requires o.Generated?
  {
    LogEntry(o.user, o.request.projectId, PromptType, o.request.prompt, o.text, ModelName)
  }

  // ------------------------------------------------------------ properties

  /** A missing project, a failed lookup and another user's project give the same response. */
  lemma OwnershipFailuresLookAlike(sessions: map<string, UserId>, profiles: map<UserId, ProfileRow>,
                                   owners: map<ProjectId, UserId>, req: HttpRequest, env: Env,
                                   stranger: UserId)
    requires req.verb != "OPTIONS" && req.body.Some? && Validate(req.body.value).Ok?
    requires Caller(req.authorization, sessions, env.authFails).Some?
    requires stranger != Caller(req.authorization, sessions, env.authFails).value
    ensures var pid := Validate(req.body.value).value.projectId;
      && Render(Decide(sessions, profiles, owners - {pid}, req, env))
         == Render(Decide(sessions, profiles, owners[pid := stranger], req, env))
      && Render(Decide(sessions, profiles, owners[pid := stranger], req, env))
         == Render(Decide(sessions, profiles, owners, req, env.(projectReadFails := true)))
  {
  }

  /** One successful invocation never pushes the counter past the quota it read. */
  lemma ChargeStaysWithinQuota(profiles: map<UserId, ProfileRow>, user: UserId)
    requires user in profiles && ChaptersUsed(profiles[user]) < ChapterQuota(profiles[user])
    ensures var after := Charge(profiles, user, ChaptersUsed(profiles[user]))[user];
      && ChaptersUsed(after) == ChaptersUsed(profiles[user]) + 1
      && ChaptersUsed(after) <= ChapterQuota(after)
      && ChapterQuota(after) == ChapterQuota(profiles[user])
  {
  }

  /**
   * An account at or over its quota is refused with that quota in the message
   * whatever the project and the gateway would have done: the client's own
   * check is not needed.
   */
  lemma ExhaustedAccountIsRefused(sessions: map<string, UserId>, profiles: map<UserId, ProfileRow>,
                                  owners: map<ProjectId, UserId>, req: HttpRequest, env: Env, user: UserId)
    requires Admitted(sessions, req, env) && Caller(req.authorization, sessions, env.authFails) == Some(user)
    requires !env.profileReadFails && user in profiles
    requires ChaptersUsed(profiles[user]) >= ChapterQuota(profiles[user])
    ensures Render(Decide(sessions, profiles, owners, req, env))
         == Response(403, ErrorBody(CreditLimitReached, Some(CreditMessage(ChapterQuota(profiles[user]))), []))
  {
  }

  /**
   * A request that passes every check is answered with the generated text,
   * and its profile is charged from the counter that was read.
   */
  lemma EveryCheckPassedGenerates(sessions: map<string, UserId>, profiles: map<UserId, ProfileRow>,
                                  owners: map<ProjectId, UserId>, req: HttpRequest, env: Env, user: UserId)
    requires Admitted(sessions, req, env) && Caller(req.authorization, sessions, env.authFails) == Some(user)
    requires CreditLeft(profiles, user, env)
    requires OwnedBy(owners, Validate(req.body.value).value.projectId, user, env.projectReadFails)
    requires HasApiKey(env) && env.gateway.Replied?
    ensures var o := Decide(sessions, profiles, owners, req, env);
      && o == Generated(user, Validate(req.body.value).value, ChaptersUsed(profiles[user]), GeneratedText(env.gateway.content))
      && Render(o) == Response(200, TextBody(GeneratedText(env.gateway.content)))
  {
  }

  /** A failed profile read, or no row for the caller, is a 500 whatever the quota and the project. */
  lemma UnreadableProfileFails(sessions: map<string, UserId>, profiles: map<UserId, ProfileRow>,
                               owners: map<ProjectId, UserId>, req: HttpRequest, env: Env, user: UserId)
    requires Admitted(sessions, req, env) && Caller(req.authorization, sessions, env.authFails) == Some(user)
    requires env.profileReadFails || user !in profiles
    ensures Render(Decide(sessions, profiles, owners, req, env))
         == Response(500, ErrorBody(SubscriptionCheckFailed, None, []))
  {
  }

  /** A request without a caller is refused with 401 and no details, whatever its body. */
  lemma UnauthenticatedIsRefused(sessions: map<string, UserId>, profiles: map<UserId, ProfileRow>,
                                 owners: map<ProjectId, UserId>, req: HttpRequest, env: Env)
    requires req.verb != "OPTIONS" && Caller(req.authorization, sessions, env.authFails).None?
    ensures Render(Decide(sessions, profiles, owners, req, env))
         == Response(401, ErrorBody(Unauthorized, None, []))
  {
  }

  /** A body the schema rejects is answered with 400 and exactly the failing fields. */
  lemma RejectedBodyIsReported(sessions: map<string, UserId>, profiles: map<UserId, ProfileRow>,
                               owners: map<ProjectId, UserId>, req: HttpRequest, env: Env)
    requires req.verb != "OPTIONS" && Caller(req.authorization, sessions, env.authFails).Some?
    requires req.body.Some? && Validate(req.body.value).Err?
    ensures Render(Decide(sessions, profiles, owners, req, env))
         == Response(400, ErrorBody(InvalidRequestData, None, Validate(req.body.value).error))
  {
  }

  /** A caller with credit left but without the project is refused with 403 and no message. */
  lemma ForeignProjectIsDenied(sessions: map<string, UserId>, profiles: map<UserId, ProfileRow>,
                               owners: map<ProjectId, UserId>, req: HttpRequest, env: Env, user: UserId)
    requires Admitted(sessions, req, env) && Caller(req.authorization, sessions, env.authFails) == Some(user)
    requires CreditLeft(profiles, user, env)
    requires !OwnedBy(owners, Validate(req.body.value).value.projectId, user, env.projectReadFails)
    ensures Render(Decide(sessions, profiles, owners, req, env))
         == Response(403, ErrorBody(ProjectAccessDenied, None, []))
  {
  }

  /**
   * The catch-all answer: a body that is not JSON, a missing API key and a
   * failed gateway call all give the same 500, which names none of them.
   */
  lemma CrashesAreGeneric500(sessions: map<string, UserId>, profiles: map<UserId, ProfileRow>,
                             owners: map<ProjectId, UserId>, req: HttpRequest, env: Env)
    requires req.verb != "OPTIONS" && Caller(req.authorization, sessions, env.authFails).Some?
    requires || req.body.None?
             || (&& Admitted(sessions, req, env)
                 && CreditLeft(profiles, Caller(req.authorization, sessions, env.authFails).value, env)
                 && OwnedBy(owners, Validate(req.body.value).value.projectId,
                            Caller(req.authorization, sessions, env.authFails).value, env.projectReadFails)
                 && (!HasApiKey(env) || !env.gateway.Replied?))
    ensures Render(Decide(sessions, profiles, owners, req, env))
         == Response(500, ErrorBody(GenerationFailed, None, []))
  {
  }

  // ------------------------------------------------------------ the handler

  /** The tables the edge function reads and writes. */
  class Gate {
    /** The authentication service's view: which token belongs to which user. */
    const sessions: map<string, UserId>
    /** `projects.user_id` by project id. */
    const owners: map<ProjectId, UserId>
    var profiles: map<UserId, ProfileRow>
    /** The `prompts_log` table, oldest row first. */
    var log: seq<LogEntry>

    constructor (sessions: map<string, UserId>, owners: map<ProjectId, UserId>,
                 profiles: map<UserId, ProfileRow>, log: seq<LogEntry>)
      ensures this.sessions == sessions && this.owners == owners
      ensures this.profiles == profiles && this.log == log
    {
      this.sessions := sessions;
      this.owners := owners;
      this.profiles := profiles;
      this.log := log;
    }

    /**
     * The `profiles` update after a generation: the row read earlier with its
     * counter one higher. A failed write leaves the table as it was.
     */
    method IncrementUsage(user: UserId, profile: ProfileRow, used: int, fails: bool)
      modifies this
      ensures profiles == (if fails then old(profiles) else old(profiles)[user := profile.(creditsUsed := Some(used + 1))])
      ensures log == old(log)
    {
      if !fails {
        profiles := profiles[user := profile.(creditsUsed := Some(used + 1))];
      }
    }

    /** The `prompts_log` insert; a failed insert leaves the log as it was. */
    method AppendLog(entry: LogEntry, fails: bool)
      modifies this
      ensures log == (if fails then old(log) else old(log) + [entry])
      ensures profiles == old(profiles)
    {
      if !fails {
        log := log + [entry];
      }
    }

    /**
     * One invocation. The response is the rendering of `Decide`; only a
     * generated outcome writes, and then exactly the counter and one log row
     * (each unless its write fails, which the handler does not inspect).
     * `sent` is the request forwarded to the gateway, if the chain got that far.
     */
    method Handle(req: HttpRequest, env: Env) returns (resp: Response, sent: Option<GatewayCall>)
      modifies this
      ensures var o := Decide(sessions, old(profiles), owners, req, env);
        && resp == Render(o)
        && (o.Generated? ==>
              && profiles == (if env.counterWriteFails then old(profiles) else Charge(old(profiles), o.user, o.used))
              && log == (if env.logWriteFails then old(log) else old(log) + [EntryFor(o)]))
        && (!o.Generated? ==> profiles == old(profiles) && log == old(log))
        && (sent.Some? <==> o.Generated? || o == Crashed(GatewayFailed))
        && (sent.Some? ==> sent == Some(CallFor(Validate(req.body.value).value)))
    {
      ghost var o := Decide(sessions, profiles, owners, req, env);
      sent := None;
      if req.verb == "OPTIONS" {
        assert o == Preflight;
        return Response(200, NoBody), sent;
      }
      var caller := Caller(req.authorization, sessions, env.authFails);
      if caller.None? {
        assert o == Unauthenticated;
        return Response(401, ErrorBody(Unauthorized, None, [])), sent;
      }
      var user := caller.value;
      if req.body.None? {
        assert o == Crashed(BodyNotJson);
        return Response(500, ErrorBody(GenerationFailed, None, [])), sent;
      }
      var validation := Validate(req.body.value);
      if validation.Err? {
        assert o == Invalid(validation.error);
        return Response(400, ErrorBody(InvalidRequestData, None, validation.error)), sent;
      }
      var request := validation.value;
      assert o == AfterValidation(profiles, owners, user, request, env);
      resp, sent := Generate(user, request, env);
    }

    /** `Handle` from the profile read on, for an authenticated caller and a valid body. */
    method Generate(user: UserId, request: Request, env: Env) returns (resp: Response, sent: Option<GatewayCall>)
      modifies this
      ensures var o := AfterValidation(old(profiles), owners, user, request, env);
        && resp == Render(o)
        && (o.Generated? ==>
              && profiles == (if env.counterWriteFails then old(profiles) else Charge(old(profiles), o.user, o.used))
              && log == (if env.logWriteFails then old(log) else old(log) + [EntryFor(o)]))
        && (!o.Generated? ==> profiles == old(profiles) && log == old(log))
        && (sent.Some? <==> o.Generated? || o == Crashed(GatewayFailed))
        && (sent.Some? ==> sent == Some(CallFor(request)))
    {
      ghost var o := AfterValidation(profiles, owners, user, request, env);
      sent := None;
      if env.profileReadFails || user !in profiles {
        assert o == ProfileUnavailable;
        return Response(500, ErrorBody(SubscriptionCheckFailed, None, [])), sent;
      }
      var profile := profiles[user];
      var creditsUsed := ChaptersUsed(profile);
      var creditsAllowed := ChapterQuota(profile);
      if creditsUsed >= creditsAllowed {
        assert o == CreditsExhausted(creditsAllowed);
        return Response(403, ErrorBody(CreditLimitReached, Some(CreditMessage(creditsAllowed)), [])), sent;
      }
      if env.projectReadFails || request.projectId !in owners || owners[request.projectId] != user {
        assert o == AccessDenied;
        return Response(403, ErrorBody(ProjectAccessDenied, None, [])), sent;
      }
      if env.apiKey.None? || env.apiKey.value == "" {
        assert o == Crashed(MissingApiKey);
        return Response(500, ErrorBody(GenerationFailed, None, [])), sent;
      }
      sent := Some(GatewayCall(ModelName, SystemPrompt(request.tone), request.prompt));
      if !env.gateway.Replied? {
        assert o == Crashed(GatewayFailed);
        return Response(500, ErrorBody(GenerationFailed, None, [])), sent;
      }
      var text := GeneratedText(env.gateway.content);
      assert o == Generated(user, request, creditsUsed, text);
      IncrementUsage(user, profile, creditsUsed, env.counterWriteFails);
      AppendLog(LogEntry(user, request.projectId, PromptType, request.prompt, text, ModelName), env.logWriteFails);
      resp := Response(200, TextBody(text));
    }
  }
}
