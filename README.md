# StoryTorchAI core, modelled in Dafny

StoryTorchAI is a web app for writing stories chapter by chapter with an AI
assistant. Paid plans buy a monthly allowance of generated chapters. This
project models the parts of it that make decisions:

- **`generate-story` edge function** (`GenerateStory`). This is the server-side
  gate in front of the text-generation gateway. It runs a fixed chain of checks:
  preflight, authentication, body schema, profile read, credit quota, project
  ownership, API key, gateway call. The first check that fails decides the
  response. After a successful call it increments the caller's usage counter
  and appends one row to `prompts_log`.
  - `Decide` and `AfterValidation` state the chain as a function.
  - `Render` turns its outcome into an HTTP response.
  - The class `Gate` holds the `profiles` table and the `prompts_log` table as
    fields. Its method `Handle` runs the chain step by step with early returns,
    and is proved to give `Render(Decide(..))` and exactly the writes of a
    successful generation.
- **Nullable profile columns** (`Profiles`). Both server and client read them
  through JavaScript `||` fallbacks, where `null` and `0` are both falsy.
- **Subscription hook** (`Subscription`). It loads the plan snapshot the
  screens consult, and answers `hasFeature`, `canGenerateChapter` and
  `canGenerateImage`.
- **Sign-in rate limiter** (`RateLimit`). Failed attempts are counted within a
  five-minute window. The fifth one locks sign-in for fifteen minutes, and a
  countdown is formatted as `m:ss`.
- **Error classifier** (`ErrorHandler`). It maps any error to one of seven
  fixed sentences.
- **Chapter sidebar** (`ChapterList`). It computes the word count of a chapter
  and decides which entry is highlighted.
- **Editor page** (`Editor`). It holds the chapter list, the open chapter, the
  text being edited and the saving flag. Its handlers load, create, save and
  select chapters, and append generated text.
- **Assistant panel** (`AIAssistant`). It checks that the prompt is not blank,
  builds the request body and handles the reply.
- **Auto-save indicator** (`AutoSave`). It buckets the time since the last
  save, and shows a line of text for each save status.

`Text` models the JavaScript string built-ins the core relies on:
- `trim` and the `\s` class, with the ECMAScript white-space and
  line-terminator characters;
- `includes`, `startsWith` and `toLowerCase`;
- number-to-string conversion and `padStart(2, '0')`.

Collaborators are not called. Their answers are parameters instead:
- the authentication service, the database reads and writes, the gateway,
  `Deno.env` (except the two connection variables, see "Left out"),
  `Date.now()` and `localStorage`;
- in the edge function, they are the fields of `Env` plus the maps held by
  `Gate`.

## Model

| member | source | states |
|---|---|---|
| GenerateStory.Validate | supabase/functions/generate-story/index.ts:11-16 | The body is accepted iff the trimmed prompt has 1..2000 characters, the trimmed tone has 1..50, and both ids have UUID shape. The accepted prompt and tone are the trimmed strings. A rejection is non-empty and names exactly the fields that are invalid. |
| GenerateStory.FieldErrorsAreTheInvalidFields | supabase/functions/generate-story/index.ts:56-63 | The `details` of a 400 response name a field iff that field fails its rule. |
| GenerateStory.RemoveFirst | supabase/functions/generate-story/index.ts:44 | `replace('Bearer ', '')` drops a leading `Bearer ` and leaves a header without `Bearer ` unchanged. A header that contains `Bearer ` anywhere loses exactly one pattern's length. |
| GenerateStory.RemoveFirstCutsFirstOccurrence | supabase/functions/generate-story/index.ts:44 | When the pattern first occurs at index `k`, the result is the text before `k` followed by the text after that occurrence. Later occurrences are kept. |
| GenerateStory.Caller | supabase/functions/generate-story/index.ts:25-52 | There is no caller iff the header is missing or empty, the auth service fails, or the token names no session. Otherwise the caller is the session's user. |
| GenerateStory.BearerTokenIsStripped | supabase/functions/generate-story/index.ts:44 | The token sent to the auth service for `Bearer t` is `t`. |
| GenerateStory.Decide | supabase/functions/generate-story/index.ts:18-174 | `OPTIONS` is answered iff the verb is `OPTIONS`. 401 occurs iff no caller is found. The catch-all for a non-JSON body occurs iff the caller is known and the body is not JSON. A schema rejection occurs iff the body fails the schema, and it carries the validator's field list. Once the caller is known and the body is valid, the outcome is `AfterValidation`'s. |
| GenerateStory.AfterValidation | supabase/functions/generate-story/index.ts:68-141 | Each outcome occurs iff every earlier step passed and its own step failed: the profile-read failure iff the read fails or finds no row; the credit refusal iff `used >= allowed` on the read row, naming `allowed`; the ownership refusal iff credit is left and the project is not the caller's; the missing-key crash iff the key is also absent or empty; the gateway crash iff the key is set and the gateway gave no reply. A generation occurs iff every check passed and the gateway replied. It records the caller, the request, the `used` value read and the reply's text. |
| GenerateStory.Render | supabase/functions/generate-story/index.ts:19-173 | Status 200 occurs iff the request is a preflight or a generation. Only a generation returns text, and that text is the generated text. Only the credit refusal carries a `message`. |
| GenerateStory.Charge | supabase/functions/generate-story/index.ts:143-149 | The caller's counter becomes the value read plus one. No other column or row changes. |
| GenerateStory.OwnershipFailuresLookAlike | supabase/functions/generate-story/index.ts:97-108 | A missing project, another user's project and a failed lookup all produce the identical response. |
| GenerateStory.ChargeStaysWithinQuota | supabase/functions/generate-story/index.ts:83-149 | A charge that passed the quota check leaves the counter at most at the quota. The quota itself is unchanged. |
| GenerateStory.ExhaustedAccountIsRefused | supabase/functions/generate-story/index.ts:83-94 | Any account whose used count has reached its effective quota gets 403 `Credit limit reached`. The message names that quota, whatever the project and the gateway would have done. |
| GenerateStory.EveryCheckPassedGenerates | supabase/functions/generate-story/index.ts:68-174 | A request that passes authentication, the schema, the profile read, the quota, ownership and the API key, and gets a gateway reply, is answered 200 with the generated text. |
| GenerateStory.UnreadableProfileFails | supabase/functions/generate-story/index.ts:69-81 | A failed profile read, or no row for the caller, gives 500 `Failed to verify subscription`, whatever the quota and the project. |
| GenerateStory.UnauthenticatedIsRefused | supabase/functions/generate-story/index.ts:24-52 | A request without a caller (no or empty header, auth failure, unknown token) gets 401 `Unauthorized` with no message and no details, whatever its body. |
| GenerateStory.RejectedBodyIsReported | supabase/functions/generate-story/index.ts:55-64 | A body the schema rejects gets 400 `Invalid request data`, and its `details` are exactly the schema's failing fields. |
| GenerateStory.ForeignProjectIsDenied | supabase/functions/generate-story/index.ts:96-108 | A caller with credit left whose project is missing, unreadable or someone else's gets 403 `Project not found or access denied`, with no message. |
| GenerateStory.CrashesAreGeneric500 | supabase/functions/generate-story/index.ts:167-173 | A body that is not JSON, a missing API key and a failed gateway call all get the same 500 `An error occurred while generating content`, which names none of them. |
| GenerateStory.SystemPrompt | supabase/functions/generate-story/index.ts:115-117 | The system prompt is the fixed persona opening, then the tone verbatim, then the fixed closing. |
| GenerateStory.SystemPromptIdentifiesTone | supabase/functions/generate-story/index.ts:115-117 | Two tones never give the same system prompt. |
| GenerateStory.GeneratedText | supabase/functions/generate-story/index.ts:141 | The text is empty iff the reply has no content or empty content. Otherwise it is the reply's content. |
| GenerateStory.Gate.Handle | supabase/functions/generate-story/index.ts:18-174 | The response is `Render(Decide(..))` on the tables before the call. Only a generation writes, and it writes the charged counter and one log row, each unless its write fails. The gateway request is sent iff the chain reaches the gateway, and it carries the system prompt for the trimmed tone and the trimmed prompt. |
| GenerateStory.Gate.Generate | supabase/functions/generate-story/index.ts:68-166 | The same as `Handle`, from the profile read on, against `AfterValidation`. |
| GenerateStory.Gate.IncrementUsage | supabase/functions/generate-story/index.ts:143-149 | The counter update writes the read row with `used + 1`, or nothing if the write fails. The log is untouched. |
| GenerateStory.Gate.AppendLog | supabase/functions/generate-story/index.ts:151-161 | The insert appends exactly one row, or nothing if it fails. The profiles are untouched. |
| Profiles.OrElse | supabase/functions/generate-story/index.ts:83-84 | A logical-or fallback gives the stored value when it is present and non-zero, and the fallback otherwise. |
| Profiles.ChapterQuota | supabase/functions/generate-story/index.ts:84 | The effective chapter quota is the stored `monthly_chapter_credits` when it is non-zero, and 5 when it is null or 0; so it is never 0. |
| Profiles.ChaptersUsed | supabase/functions/generate-story/index.ts:83 | A stored used count, 0 included, is kept as it is, and a null one reads as 0. |
| Subscription.ImageQuota | src/hooks/useSubscription.ts:50 | The effective image quota is the stored `monthly_image_credits` when it is non-zero, and 30 when it is null or 0; so it is never 0. |
| Subscription.ImagesUsed | src/hooks/useSubscription.ts:52 | A stored images-used count is kept as it is, and a null one reads as 0. |
| Subscription.FromProfile | src/hooks/useSubscription.ts:46-54 | A fetched row gives a snapshot that is not loading. Its tier defaults to free. A stored non-zero quota is carried over, and a null or zero quota reads as 5 (chapters) or 30 (images). A stored used count, 0 included, is carried over, and a null one reads as 0. The chapter numbers are the ones the edge function reads from the same row. |
| Subscription.SubscriptionHook.constructor | src/hooks/useSubscription.ts:17-24 | The initial snapshot is free, 5 chapters, 30 images, nothing used, loading. |
| Subscription.SubscriptionHook.Fetch | src/hooks/useSubscription.ts:30-60 | A row replaces the snapshot wholesale. No session, or a failed read, only clears `loading`. A read with neither row nor error changes nothing. |
| Subscription.HasFeature | src/hooks/useSubscription.ts:62-70 | No feature is open on the free plan. Every feature is open on studio. On pro, the pro feature is open and the studio feature is not. |
| Subscription.CanGenerateChapter | src/hooks/useSubscription.ts:72-74 | A chapter may be generated iff one more still fits within the monthly chapter allowance. |
| Subscription.CanGenerateImage | src/hooks/useSubscription.ts:76-78 | An image may be generated iff one more still fits within the monthly image allowance. |
| Subscription.FeatureLadder | src/hooks/useSubscription.ts:62-70 | The pro feature is open iff the tier is pro or studio. The studio feature is open iff the tier is studio. So studio implies pro. |
| Subscription.MissingTierIsFree | src/hooks/useSubscription.ts:48 | A row with no tier opens no paid feature. |
| Subscription.ChapterCheckMatchesQuota | src/hooks/useSubscription.ts:72-74 | `canGenerateChapter` on a fetched row holds iff the row's effective used count is below its effective quota, so a stored zero quota behaves as 5. |
| Subscription.ImageCheckMatchesQuota | src/hooks/useSubscription.ts:76-78 | `canGenerateImage` on a fetched row holds iff the effective images used are below the effective image quota, so a stored zero quota behaves as 30. |
| Subscription.ServerRefusesWhenClientWould | src/hooks/useSubscription.ts:72-74 | For a readable profile, the edge function refuses with the credit error iff the client's snapshot of the same row says no chapter can be generated. |
| Subscription.InitialSnapshotIsOpenFreePlan | src/hooks/useSubscription.ts:17-24 | Before the fetch, generation of chapters and images is allowed and no paid feature is open. |
| RateLimit.RateLimiter.constructor | src/hooks/useAuthRateLimit.ts:15-27 | The state is the stored one if present, and `{0, null, 0}` otherwise. The countdown starts at 0. |
| RateLimit.AfterFailure | src/hooks/useAuthRateLimit.ts:65-81 | The last attempt becomes `now`. The count restarts at 1 iff an earlier attempt lies strictly more than 5 minutes back, and otherwise grows by one. A count of 5 or more locks until `now` + 15 minutes. Below 5, the previous lockout is kept. |
| RateLimit.IsLocked | src/hooks/useAuthRateLimit.ts:57-60 | Sign-in is locked iff a lockout time is set, non-zero, and still in the future. A locked form always shows a countdown of at least one second. |
| RateLimit.RateLimiter.RecordFailedAttempt | src/hooks/useAuthRateLimit.ts:62-82 | The new state is `AfterFailure` of the old one. The countdown is unchanged. |
| RateLimit.RateLimiter.RecordSuccessfulAttempt | src/hooks/useAuthRateLimit.ts:84-87 | The state is reset to `{0, null, 0}`. |
| RateLimit.RateLimiter.Tick | src/hooks/useAuthRateLimit.ts:35-55 | With no lockout, the countdown is 0. During a lockout, the countdown is the seconds left rounded up and the state is kept. Once the lockout has passed, the countdown is 0, and the lockout and attempts are cleared while the last attempt is kept. |
| RateLimit.RemainingSeconds | src/hooks/useAuthRateLimit.ts:44 | `Math.ceil(ms / 1000)` is at least 1, and it is the least r with `ms <= 1000 r`. |
| RateLimit.Expired | src/hooks/useAuthRateLimit.ts:48 | Expiry leaves no lockout and no attempts, and keeps the last attempt. |
| RateLimit.AttemptsRemaining | src/hooks/useAuthRateLimit.ts:89-91 | `max(0, 5 - attempts)` is never negative and at most 5 for a non-negative count. It is 0 iff attempts ≥ 5. |
| RateLimit.FormatRemaining | src/hooks/useAuthRateLimit.ts:93-98 | The countdown text is empty iff nothing remains. |
| RateLimit.FormatRemainingReadsBack | src/hooks/useAuthRateLimit.ts:95-97 | A positive countdown prints as digits, `:` and exactly two digits below 60. Read back, these give minutes·60 + seconds = the countdown. The minutes have no leading zero. |
| RateLimit.ConsecutiveFailuresAccumulate | src/hooks/useAuthRateLimit.ts:67-74 | Failures each within 5 minutes of the previous one add one each to the count. The last attempt is the time of the latest failure. |
| RateLimit.LastFailureSetsLockout | src/hooks/useAuthRateLimit.ts:75-77 | After a run of failures, a count at the limit means a lockout until the last failure + 15 minutes. |
| RateLimit.FiveQuickFailuresLock | src/hooks/useAuthRateLimit.ts:62-82 | Five failures, each within 5 minutes of the one before, lock sign-in for 15 minutes after the fifth, and leave 0 attempts. |
| RateLimit.LateFailureStartsOver | src/hooks/useAuthRateLimit.ts:67-70 | A failure more than 5 minutes after the last one counts as the first, leaves 4 attempts and keeps the old lockout. |
| RateLimit.ExpiryUnlocks | src/hooks/useAuthRateLimit.ts:43-49 | After expiry the limiter is unlocked, with all 5 attempts available. |
| ErrorHandler.EffectiveCode | src/lib/errorHandler.ts:22 | The code is `code` when it is present and non-empty. When `code` is absent or empty, it is `error_code`, whatever that is. |
| ErrorHandler.UserFriendlyError | src/lib/errorHandler.ts:15-55 | The result is always one of the seven fixed sentences. |
| ErrorHandler.UserFriendlyErrorClassifies | src/lib/errorHandler.ts:22-54 | Each sentence is returned iff its rule is the first that applies. The rules, in order: `PGRST116`, then `23505` or another `23…` code, then `22…`, then auth words before network words, then the fallback. |
| ErrorHandler.AuthenticationBeforeConnection | src/lib/errorHandler.ts:41-51 | A message with no code that mentions both `auth` and `network` is reported as an authentication failure. |
| Text.Trim | src/components/ChapterList.tsx:20 | `trim` is empty iff the text is all white space. Otherwise it begins and ends with a non-white-space character. |
| Text.TrimIsSlice | src/components/ChapterList.tsx:20 | `trim` is `TrimEnd(TrimStart(s))`. It keeps one contiguous slice of the text, starting where the leading white space ends, and everything it drops before and after that slice is white space. |
| Text.PadTwo | src/hooks/useAuthRateLimit.ts:97 | `padStart(2, '0')` of a number below 100 is two digits that read back as the number. |
| ChapterList.TokenCount | src/components/ChapterList.tsx:20 | `trim().split(/\s+/).filter(Boolean).length` is at most the text's length. It is 0 iff the text is all white space. |
| ChapterList.TokenCountIsWordRuns | src/components/ChapterList.tsx:20 | That count equals the number of maximal runs of non-white-space characters. |
| ChapterList.PaddingKeepsTokenCount | src/components/ChapterList.tsx:20 | White space added before or after a text does not change its count. |
| ChapterList.WordCount | src/components/ChapterList.tsx:18-21 | `null` and `''` count 0 words. Other text counts its tokens. |
| ChapterList.Entries | src/components/ChapterList.tsx:25-27 | There is one entry per chapter, in order. Each entry shows its chapter's title, number and word count. An entry is highlighted iff its id is the open chapter's id. |
| ChapterList.AtMostOneActive | src/components/ChapterList.tsx:27 | With distinct ids at most one entry is highlighted, and none when no chapter is open. |
| ChapterList.IsActive | src/components/ChapterList.tsx:27 | An entry is highlighted iff a chapter is open and the entry's chapter has its id. A saved copy of the open chapter is highlighted too. |
| Editor.ContentOf | src/pages/Editor.tsx:171 | A chapter with null content shows the empty text; otherwise its own content. |
| Editor.NextChapter | src/pages/Editor.tsx:111-120 | A new chapter is numbered one past the current count, titled `Chapter n`, with empty content and word count 0. |
| Editor.ReplaceContent | src/pages/Editor.tsx:156-160 | The list keeps its length, order, ids, titles and numbers. Chapters with the saved id get the new content, and the others are unchanged. |
| Editor.EditorPage.constructor | src/pages/Editor.tsx:31-37 | The page starts with the route's project id, no chapters, no open chapter, empty text, and not saving. |
| Editor.EditorPage.LoadChapters | src/pages/Editor.tsx:85-105 | A loaded list replaces the chapters. A non-empty list opens its first chapter and shows its text. A failed load changes nothing. |
| Editor.EditorPage.CreateChapter | src/pages/Editor.tsx:107-134 | Nothing is sent without a project id. Otherwise the next chapter row is sent. If it is stored, it is appended, becomes the open chapter, and the editor empties. If it fails, nothing changes. |
| Editor.EditorPage.SaveChapter | src/pages/Editor.tsx:136-167 | With no open chapter nothing happens. Otherwise the update carries the open chapter's id, the text and its token count. Only a successful save changes the list, by `ReplaceContent`. `saving` is false afterwards. |
| Editor.EditorPage.SelectChapter | src/pages/Editor.tsx:169-172 | The chapter becomes current, and the editor shows its text, or `""` if it has none. |
| Editor.EditorPage.AIGenerate | src/pages/Editor.tsx:174-176 | The generated text is appended after a blank line. |
| Editor.EditorPage.DisplayedWordCount | src/pages/Editor.tsx:272 | The on-screen count is the same token count, and it is 0 iff the text is blank. |
| Editor.ReplaceContentIdempotent | src/pages/Editor.tsx:156-160 | Saving the same text twice gives the list of one save. |
| Editor.LaterSaveWins | src/pages/Editor.tsx:156-160 | Of two saves of a chapter, the later text stays. |
| Editor.SidebarShowsSavedCount | src/pages/Editor.tsx:141-160 | After a save, the sidebar shows for the saved chapter the count the update persisted. Every other entry is unchanged. |
| Editor.CreatedChapterIsNextAndActive | src/pages/Editor.tsx:111-128 | A created chapter is listed last, numbered `count + 1`, shows 0 words and is highlighted. |
| Editor.AppendAfterBlankLineAddsWords | src/pages/Editor.tsx:175 | Appending generated text after a blank line adds exactly its words to the count. |
| AIAssistant.Assistant.constructor | src/components/AIAssistant.tsx:17-18 | The panel starts with an empty prompt and not generating. |
| AIAssistant.Assistant.Submit | src/components/AIAssistant.tsx:20-30 | A blank prompt sends nothing, shows `Please enter a prompt`, and leaves `generating` alone. Otherwise the untrimmed prompt is sent with the tone and both ids, and `generating` is set. |
| AIAssistant.Assistant.Complete | src/components/AIAssistant.tsx:31-43 | Text is handed on iff the reply has non-empty text. That text is handed on exactly once, and the prompt is cleared with a success notice. An error shows the classifier's sentence. `generating` ends false in every case. |
| AIAssistant.HasPrompt | src/components/AIAssistant.tsx:21 | The guard passes iff the prompt is not all white space. |
| AIAssistant.GuardAgreesWithSchema | src/components/AIAssistant.tsx:21 | Every prompt the endpoint accepts passes the guard. A prompt that passes is accepted unless it is over 2000 characters once trimmed. |
| AIAssistant.PaddedPromptStillPasses | src/components/AIAssistant.tsx:21 | White space typed around a passing prompt keeps it passing. |
| AutoSave.Elapsed | src/components/AutoSaveIndicator.tsx:15 | The elapsed seconds are rounded down: `1000 s <= now - last < 1000 (s + 1)`. |
| AutoSave.TimeAgo | src/components/AutoSaveIndicator.tsx:16-18 | The text is `just now` iff fewer than 60 seconds have passed, negative ones included. |
| AutoSave.UpdateTimeAgo | src/components/AutoSaveIndicator.tsx:12-25 | Without a save time the text stays. Otherwise it is the bucket of the elapsed seconds. |
| AutoSave.MinutesReadBack | src/components/AutoSaveIndicator.tsx:17 | From 60 to 3599 seconds the text is digits + `m ago`. The digits have no leading zero and read back as the whole minutes, 1..59, that contain the elapsed time. |
| AutoSave.HoursReadBack | src/components/AutoSaveIndicator.tsx:18 | From 3600 seconds on, the text is digits + `h ago`. The digits have no leading zero and read back as the whole hours, at least 1. |
| AutoSave.UnitsAreDistinguishable | src/components/AutoSaveIndicator.tsx:17-18 | A minutes text never equals an hours text. |
| AutoSave.Label | src/components/AutoSaveIndicator.tsx:29-46 | Saving shows `Saving...`, idle shows `Auto-save enabled`, and saved shows `Saved ` then the time text. Each line reads back as its status. |
| AutoSave.LabelIdentifiesStatus | src/components/AutoSaveIndicator.tsx:29-46 | Different statuses never show the same line. Two saved lines differ when their time texts do. |

## Left out

- **Network, database, authentication service, gateway, `Deno.env`, CORS headers, `Date.now()`, timers and `localStorage`.** These are not executed. The answers the model uses are parameters: the `Env` record, the maps held by `Gate`, reply parameters, and `now`.
  - The interval timers of the rate limiter and the indicator are modelled as single `Tick` / `UpdateTimeAgo` steps.
  - Writing the rate-limit state to storage is not modelled.
- **Concurrency.** Two invocations can race on `credits_used_this_month`, because it is read and later written (check, then act). Only one invocation at a time is modelled.
  - Each client handler runs atomically. The model does not capture React's batching of state updates, or the page changing while a request is in flight.
  - The assistant's request is split into `Submit` and `Complete` so that `generating` is visible in between.
- **String lengths.** They are counted in characters (code points). JavaScript counts UTF-16 code units, so the 2000- and 50-character limits differ for text outside the Basic Multilingual Plane.
- **`SUPABASE_URL` and `SUPABASE_SERVICE_ROLE_KEY`** are assumed set. `Env` has no field for them. If either is missing, `createClient` throws once a header is present, and the catch answers 500 where the model answers 401 or later outcomes.
- **ErrorHandler.EffectiveCode** takes `code` and `error_code` to be strings or absent. In JavaScript, a truthy `code` or `message` that is not a string makes the classifier throw (`startsWith` or `toLowerCase` is not a function). The model cannot represent that case.
- **ErrorHandler.UserFriendlyError** lower-cases ASCII letters only. JavaScript's `toLowerCase` also folds other letters, some of them into ASCII (the Kelvin sign becomes `k`).
- **GenerateStory.Validate** models the body as an object whose fields are each either a string or absent/not a string.
  - It does not model a JSON body that is valid but not an object.
  - `details` is modelled as the list of failing fields in declaration order. It does not include zod's full issue objects.
  - `chapterId` is validated but not used afterwards, as in the handler.
- **Gateway failures.** An unreachable gateway, a non-OK status and an unparsable reply are one outcome (`Crashed(GatewayFailed)`). They get the same response.
- **Logging.** `console.error`, `logError` and development-mode logging are side effects only.
- **Toasts.** They are kept only where they carry a decision: the assistant's notices. The editor's toasts are not modelled.
- **RateLimit.RateLimiter.constructor** takes the stored state as already parsed. A stored value that parses to something other than a state record is not modelled.
- **Editor page.** Its project load, its authentication redirect and its rendering are not modelled. Ordering the chapter query by number is the database's job: the loaded list is taken in the order given.
- **Out of the model:** `EditorStats.tsx` (floating-point percentages for display), `Landing.tsx`, `Settings.tsx`, `Dashboard.tsx`, `CharacterVault.tsx`, and the generated type declarations in `types.ts`. Only the enums and the column names of `types.ts` shape the datatypes.
- **Monthly reset.** Resetting the usage counters each month does not exist in the code, and is not modelled.
