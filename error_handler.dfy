/**
 * The client's error classifier: any error object becomes one of seven fixed,
 * user-facing sentences, so no code, message or identifier of the error is shown.
 */
module ErrorHandler {
  import opened Common
  import opened Text

  /**
   * The fields the classifier reads from an error value. `None` stands for a
   * missing field (or a missing error altogether).
   */
  datatype ErrorInfo = ErrorInfo(code: Option<string>, errorCode: Option<string>, message: Option<string>)

  const NotFound := "The requested item could not be found."
  const AlreadyExists := "This item already exists."
  const InvalidData := "The data you entered is invalid."
  const CheckInput := "Please check your input and try again."
  const AuthFailed := "Authentication failed. Please try logging in again."
  const ConnectionError := "Connection error. Please check your internet connection."
  const Unexpected := "An unexpected error occurred. Please try again."

  const Messages: set<string> :=
    {NotFound, AlreadyExists, InvalidData, CheckInput, AuthFailed, ConnectionError, Unexpected}

  /** `error?.code || error?.error_code`: an empty `code` is falsy and falls through. */
  function EffectiveCode(e: ErrorInfo): (r: Option<string>)
    ensures r.Some? ==> r == e.code || r == e.errorCode
    ensures e.code.Some? && e.code.value != "" ==> r == e.code
    ensures e.code.None? || e.code.value == "" ==> r == e.errorCode
  {
    if e.code.Some? && e.code.value != "" then e.code else e.errorCode
  }

  /** `error?.message?.toLowerCase().includes(word)`. */
  predicate MessageMentions(e: ErrorInfo, word: string)
  {
    e.message.Some? && Contains(Lower(e.message.value), word)
  }

  predicate CodeStartsWith(e: ErrorInfo, prefix: string)
  {
    EffectiveCode(e).Some? && StartsWith(EffectiveCode(e).value, prefix)
  }

  /** `getUserFriendlyError`: the first rule that applies decides. */
  function UserFriendlyError(e: ErrorInfo): (r: string)
    ensures r in Messages
  {
    var code := EffectiveCode(e);
    if code == Some("PGRST116") then NotFound
    else if CodeStartsWith(e, "23") then (if code == Some("23505") then AlreadyExists else InvalidData)
    else if CodeStartsWith(e, "22") then CheckInput
    else if MessageMentions(e, "auth") || MessageMentions(e, "unauthorized") then AuthFailed
    else if MessageMentions(e, "network") || MessageMentions(e, "fetch") then ConnectionError
    else Unexpected
  }

  /** No code and no recognised message: the generic sentence. */
  predicate NoRuleApplies(e: ErrorInfo)
  {
    && EffectiveCode(e) != Some("PGRST116")
    && !CodeStartsWith(e, "23")
    && !CodeStartsWith(e, "22")
    && !MessageMentions(e, "auth") && !MessageMentions(e, "unauthorized")
    && !MessageMentions(e, "network") && !MessageMentions(e, "fetch")
  }

  /**
   * Each sentence is produced exactly when its rule is the first that applies:
   * code rules come before message rules, and the authentication rule before
   * the connection rule.
   */
  lemma UserFriendlyErrorClassifies(e: ErrorInfo)
    ensures UserFriendlyError(e) == NotFound <==> EffectiveCode(e) == Some("PGRST116")
    ensures UserFriendlyError(e) == AlreadyExists <==> EffectiveCode(e) == Some("23505")
    ensures UserFriendlyError(e) == InvalidData <==> CodeStartsWith(e, "23") && EffectiveCode(e) != Some("23505")
    ensures UserFriendlyError(e) == CheckInput <==> CodeStartsWith(e, "22")
    ensures UserFriendlyError(e) == AuthFailed <==>
      && EffectiveCode(e) != Some("PGRST116") && !CodeStartsWith(e, "23") && !CodeStartsWith(e, "22")
      && (MessageMentions(e, "auth") || MessageMentions(e, "unauthorized"))
    ensures UserFriendlyError(e) == ConnectionError <==>
      && EffectiveCode(e) != Some("PGRST116") && !CodeStartsWith(e, "23") && !CodeStartsWith(e, "22")
      && !MessageMentions(e, "auth") && !MessageMentions(e, "unauthorized")
      && (MessageMentions(e, "network") || MessageMentions(e, "fetch"))
    ensures UserFriendlyError(e) == Unexpected <==> NoRuleApplies(e)
  {
    var code := EffectiveCode(e);
    if code == Some("23505") {
      assert StartsWith("23505", "23");
    }
    if CodeStartsWith(e, "22") {
      assert code.value[1] == "22"[1] != "23"[1];
    }
    if code == Some("PGRST116") {
      assert "PGRST116"[0] != "23"[0] && "PGRST116"[0] != "22"[0];
    }
  }

  /** A message that names both an authentication and a network problem is reported as an authentication failure. */
  lemma AuthenticationBeforeConnection(e: ErrorInfo)
    requires e.code == None && e.errorCode == None
    requires MessageMentions(e, "auth") && MessageMentions(e, "network")
    ensures UserFriendlyError(e) == AuthFailed
  {
  }
}
