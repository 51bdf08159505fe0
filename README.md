# Newomen rule sets in Dafny

Newomen is a wellness web app built with React and a hosted Supabase backend.
It offers self-assessment quizzes, an onboarding wizard, a chat with the
"NewMe" guide, an image studio, events with bookings and membership leads,
and an admin area. Most of its code is page markup and calls to the
database or to model gateways. This project lifts out the small,
deterministic rule sets the pages and edge functions apply, and models and
proves them. Every database or network call becomes an input value.

One Dafny module models each core source file:

- `Assessment` (`assessment.dfy`): the six quiz definitions compiled into the client. It covers the score (chosen option positions summed, normalised by a fixed 3 points per question, rounded half-up) and the first-match category with its fallback. It also holds the `Wizard` class that walks the questions.
- `Onboarding` (`onboarding.dfy`): the zodiac sign of a (month, day), the per-step "can proceed" gating, the step cursor (`Wizard` class), and the profile update and starter subscription written on completion.
- `Validation` (`validation.dfy`): the WhatsApp number and full-name checks of the lead form, the mapping from database error codes to user messages, and the control-character sanitiser.
- `NewmeChat` (`newme_chat.dfy`): the chat edge function. It covers the authorization gate, the memory context, persona selection, the system prompt, the demo reply, and the two stored rows of a turn.
- `ImageGateway` (`image_gateway.dfy`): the image edge function. It builds the messages per action, maps gateway failures to responses, and extracts the image.
- `VerifyAdmin` (`verify_admin.dfy`) and `AdminRoleHook` (`admin_role_hook.dfy`): how a role list becomes the admin flags, on the server and in the client hook.
- `VoiceChat` (`voice_chat.dfy`): the chat page (`ChatPage` class). It covers stop words, the intensity cycle, the voice-minute quota and the append-only transcript.
- `ImageStudio` (`image_studio.dfy`): the studio page (`StudioPage` class). It covers the upload guard, the payload it sends and what it keeps of the answer.
- `AdminAssessments` (`admin_assessments.dfy`): the assessment editor (`Editor` class). It covers the tag and question list editors, the defaults used when a row is opened, and the visibility labels.
- `Events` (`events.dfy`) and `EventDetail` (`event_detail.dfy`): the public event list filter and card values, and the event page. The event page covers availability, the booking row, the lead form (`DetailPage` class) and the description line layout.
- `AdminLists` (`admin_lists.dfy`): the lead, user and event lists of the admin area. It covers their filters, counts and totals.

Two support modules sit underneath. `Schema` (`schema.dfy`) holds the
database enumerations and their stored spellings. `Text` (`text.dfy`) holds
the JavaScript string and array operations the rules use:

- `trim` over the JavaScript whitespace set;
- an ASCII `toLowerCase`;
- `includes`, `indexOf` and `replace` of the first occurrence;
- `split`/`join`;
- UTF-16 `.length`;
- `filter`, with its subsequence and membership lemmas.

JavaScript `||` defaults are modelled as "missing, empty or zero falls
back", and `??` as "missing falls back".

Where the design description of the system and the code disagree, the model
follows the code:

- The chat function never creates a session. The chat page creates it before calling (`src/pages/VoiceChat.tsx:100-123`).
- The chat function never reads the model's HTTP status, so it never answers 429 or 402 (`supabase/functions/newme-chat/index.ts:131-132`). Only the image function maps those two statuses.
- An unknown access token makes the chat function answer 500 "User not found", not 401 (`supabase/functions/newme-chat/index.ts:39-40`).

## Model

| member | source | states |
|---|---|---|
| Assessment.UniformQuestions | src/pages/AssessmentDetail.tsx:45-56 | a definition's questions are numbered 1..n in order, each with the same option count |
| Assessment.Lookup | src/pages/AssessmentDetail.tsx:209 | a route id finds the shipped definition with that key, or none when no definition has it |
| Assessment.LookupIn | src/pages/AssessmentDetail.tsx:209 | a found definition is in the list and has the key; none found means no listed definition has the key |
| Assessment.ShippedWellFormed | src/pages/AssessmentDetail.tsx:26-194 | every shipped definition has questions with ascending ids and categories whose ranges follow each other without gap or overlap from 0 to 100 |
| Assessment.MinKey | src/pages/AssessmentDetail.tsx:254 | the key enumerated first from the answer object is the smallest one |
| Assessment.MapSumIsPoints | src/pages/AssessmentDetail.tsx:254 | summing `Object.values(answers)` equals summing the answers question by question |
| Assessment.PointsIgnoresOthers | src/pages/AssessmentDetail.tsx:254 | the points depend only on the answers to the definition's own questions |
| Assessment.Score | src/pages/AssessmentDetail.tsx:255-256 | the score r satisfies 6n·r ≤ 200·total + 3n < 6n·(r+1): it is 100·total/(3n) rounded half-up, and it is non-negative for non-negative totals |
| Assessment.ScoreUnique | src/pages/AssessmentDetail.tsx:255-256 | any integer with the rounding property is the score, so the integer formula and `Math.round` of the exact quotient agree |
| Assessment.ScoreMonotone | src/pages/AssessmentDetail.tsx:254-256 | more points never give a lower score |
| Assessment.FindCategory | src/pages/AssessmentDetail.tsx:259-260 | the position found is the first category whose inclusive range holds the score; none is found exactly when no range holds it |
| Assessment.Categorize | src/pages/AssessmentDetail.tsx:259-261 | the result is the first category holding the score, or the last category when none holds it |
| Assessment.PartitionExactlyOne | src/pages/AssessmentDetail.tsx:57-62 | with ranges that partition 0..100, a score is in some category iff it is in 0..100, and never in two |
| Assessment.LastStartingAtOrBelow | src/pages/AssessmentDetail.tsx:259-261 | for a score of at least 0, the last category starting at or below it (used to find the category holding it) |
| Assessment.LastStartingFrom | src/pages/AssessmentDetail.tsx:259-261 | the search behind `LastStartingAtOrBelow`, from a given position |
| Assessment.RangesAscend | src/pages/AssessmentDetail.tsx:57-62 | partitioning ranges are strictly ordered and lie within 0..100 |
| Assessment.FallbackOnlyAbove100 | src/pages/AssessmentDetail.tsx:259-261 | for a shipped definition no category matches exactly when the score is outside 0..100 |
| Assessment.PointsBounds | src/pages/AssessmentDetail.tsx:254 | answers within k+1 options contribute between 0 and k points per question |
| Assessment.PointsAllSame | src/pages/AssessmentDetail.tsx:254 | choosing option k everywhere gives k points per question |
| Assessment.AllAnswered | src/pages/AssessmentDetail.tsx:232-234 | the answer set choosing option k for every question id |
| Assessment.AllFirstScoresZero | src/pages/AssessmentDetail.tsx:254-261 | all-first answers score 0 and land in the first category |
| Assessment.Evaluate | src/pages/AssessmentDetail.tsx:250-261 | `calculateResult`: for answers to the quiz's questions, the score is the score of the points counted question by question; the title is the category `Categorize` picks for that score |
| Assessment.FourOptionScoresAtMost100 | src/pages/AssessmentDetail.tsx:254-256 | with four-option questions every answer set scores 0..100 and all-last answers score exactly 100 |
| Assessment.FiveOptionScoresAbove100 | src/pages/AssessmentDetail.tsx:73-80 | with five-option questions the fixed 3-point denominator lets scores reach 133, and all-last answers score exactly 133 |
| Assessment.FiveOptionAllLastFallsBack | src/pages/AssessmentDetail.tsx:259-261 | on the shipped five-option assessments all-last answers match no range and get the last category through the fallback |
| Assessment.Wizard.constructor | src/pages/AssessmentDetail.tsx:202-207 | a fresh quiz: not started, first question, no answers, no result |
| Assessment.Wizard.Start | src/pages/AssessmentDetail.tsx:388 | the start button starts the quiz |
| Assessment.Wizard.Answer | src/pages/AssessmentDetail.tsx:232-234 | the option is stored under the current question's id and every other entry is unchanged |
| Assessment.Wizard.CanGoNext | src/pages/AssessmentDetail.tsx:447 | Next is enabled iff the current question has an answer and no result is being computed |
| Assessment.Wizard.Next | src/pages/AssessmentDetail.tsx:236-242 | before the last question the cursor advances by one; on the last it stays and the result of the answers is shown; the cursor stays in range |
| Assessment.Wizard.Back | src/pages/AssessmentDetail.tsx:244-248 | the cursor steps back unless it is at 0 |
| Assessment.Wizard.Retake | src/pages/AssessmentDetail.tsx:279-285 | back to the start: first question, no answers, not complete, no result |
| Onboarding.Horoscope | src/pages/Onboarding.tsx:76-93 | for a month 1-12 the sign is one whose span holds the day; any other month gives Pisces, so the function is total |
| Onboarding.SpansDisjoint | src/pages/Onboarding.tsx:81-91 | no day lies in two signs' spans |
| Onboarding.SpansConsecutive | src/pages/Onboarding.tsx:81-92 | each span ends the day before the next begins, Capricorn wrapping from December into January |
| Onboarding.HoroscopeIff | src/pages/Onboarding.tsx:81-92 | for a month 1-12, the sign computed is s iff s's span holds the day |
| Onboarding.CanProceed | src/pages/Onboarding.tsx:168-185 | the nickname step passes iff the trimmed nickname is at least 2 UTF-16 units long; the assessment step iff at least 5 questions are answered; language iff non-empty; date of birth, intensity and consent always pass |
| Onboarding.BlankNicknameBlocked | src/pages/Onboarding.tsx:173 | a whitespace-only nickname never passes |
| Onboarding.TwoVisibleCharactersPass | src/pages/Onboarding.tsx:173 | two non-whitespace characters anywhere in the nickname let it pass |
| Onboarding.AstralNicknamePasses | src/pages/Onboarding.tsx:173 | `.length` counts UTF-16 units, so one character outside the Basic Multilingual Plane already passes |
| Onboarding.MoreAnswersStillPass | src/pages/Onboarding.tsx:177 | once five deep-dive questions are answered, answering more never closes the step |
| Onboarding.ProfileOf | src/pages/Onboarding.tsx:120-134 | date of birth and horoscope are null exactly when no date was entered, otherwise the date and its sign; completion is set with step 6; the other fields are copied |
| Onboarding.Complete | src/pages/Onboarding.tsx:110-146 | nothing without a user; an error without a backend or when the update fails; otherwise the profile update and a starter subscription (discovery, active, 5 minutes, 0 used) |
| Onboarding.Wizard.constructor | src/pages/Onboarding.tsx:52-64 | first step, the initial form, not loading |
| Onboarding.Wizard.CanGoNext | src/pages/Onboarding.tsx:369 | Next is enabled iff nothing is loading and the current step passes its check; on the always-passing steps iff not loading |
| Onboarding.Wizard.Answer | src/pages/Onboarding.tsx:247 | the option is stored under the question id, nothing else changes |
| Onboarding.Wizard.Edit | src/pages/Onboarding.tsx:59-64 | an input replaces the form |
| Onboarding.Wizard.Next | src/pages/Onboarding.tsx:95-102 | before the last step the cursor advances; on the last step it stays, completion runs and loading ends; the cursor stays in 0..5 |
| Onboarding.Wizard.Back | src/pages/Onboarding.tsx:104-108 | the cursor steps back unless it is at 0 |
| Validation.DigitRun | src/lib/validation.ts:10 | the length of the leading run of digits |
| Validation.MatchPhoneIff | src/lib/validation.ts:10 | the left-to-right matcher accepts exactly the pattern: optional '+', a digit 1-9, then 6 to 14 digits |
| Validation.WhatsappIssues | src/lib/validation.ts:6-12 | no issue iff the number fits the pattern; the empty string gets both messages; only the two messages occur |
| Validation.AcceptedPhoneDigits | src/lib/validation.ts:6-12 | an accepted number has 7 to 15 digits (the ITU-T E.164 maximum is 15) and at most one other character |
| Validation.NameIssues | src/lib/validation.ts:17-24 | no issue iff the length is 2..100 and every character is an ASCII letter, in U+00C0-U+017F, whitespace, an apostrophe or a hyphen |
| Validation.NameCheckAdmits | src/lib/validation.ts:17-24 | two spaces, or the signs × and ÷, pass as a name; so does a name of exactly 100 characters, although the message says "less than 100" |
| Validation.Tagged | src/lib/validation.ts:27-30 | each message is reported under its field |
| Validation.LeadIssues | src/lib/validation.ts:27-30 | a lead has no issue iff its name and its number are both valid |
| Validation.GetErrorMessage | src/lib/validation.ts:36-63 | the result is always one of the fixed user messages; "An unexpected error occurred" iff the error is falsy; 23505 gives the duplicate message, 23503 the bad-reference one, 42501 the permission one and PGRST301 the expired-session one; 23514 gives the phone message when the text mentions "whatsapp", else the name message when it mentions "fullname", else the format message; any unlisted code gives the generic message |
| Validation.MessageTextIgnored | src/lib/validation.ts:42-63 | the raw error text never reaches the user: only whether it mentions "whatsapp" or "fullname" matters, and only for 23514 |
| Validation.UserMessagesDistinct | src/lib/validation.ts:37-62 | the messages are pairwise distinct, so a message identifies its case |
| Validation.StripControls | src/lib/validation.ts:71 | the result is no longer than the input and has none of the stripped control characters |
| Validation.StripMembership | src/lib/validation.ts:71 | a character survives stripping iff it occurs and is not a stripped control, so tab, line feed and carriage return are kept |
| Validation.SanitizeString | src/lib/validation.ts:67-72 | the result is no longer than the input and contains no stripped control character |
| Validation.SanitizeControlFree | src/lib/validation.ts:67-72 | on input without stripped controls the result is exactly the trimmed input |
| Validation.SanitizeKeepsPadding | src/lib/validation.ts:67-72 | trimming before stripping lets "a \u0001" become "a ", whose sanitising again gives "a" |
| Validation.SanitizeTrimmed | src/lib/validation.ts:67-72 | stripping before trimming: no stripped controls and no surrounding whitespace |
| Validation.SanitizeTrimmedProperties | src/lib/validation.ts:67-72 | the corrected sanitiser agrees with the written one on control-free input and is idempotent |
| NewmeChat.OrDefault | supabase/functions/newme-chat/index.ts:80-81 | a missing or empty value falls back to the default, otherwise it is kept |
| NewmeChat.BearerToken | supabase/functions/newme-chat/index.ts:39 | a header starting "Bearer " gives the rest; a header without it is passed unchanged; any other header loses exactly one seven-character occurrence of the scheme |
| NewmeChat.Lines | supabase/functions/newme-chat/index.ts:62 | one "role: content" line per saved message, in order |
| NewmeChat.Context | supabase/functions/newme-chat/index.ts:49-65 | without consent, or without data, the context is empty |
| NewmeChat.ContextLines | supabase/functions/newme-chat/index.ts:51-64 | with consent the context splits back into the at most ten newest messages, oldest first, one line each |
| NewmeChat.Persona | supabase/functions/newme-chat/index.ts:68-78 | soft, direct and no_mercy select their own persona; any other value gets the direct persona |
| NewmeChat.PersonasDistinct | supabase/functions/newme-chat/index.ts:68-74 | the three personas differ |
| NewmeChat.SystemPrompt | supabase/functions/newme-chat/index.ts:76-83 | the prompt starts with the persona, names the nickname (default "there") and the horoscope (default "unknown"), and ends with the context |
| NewmeChat.DemoReply | supabase/functions/newme-chat/index.ts:87-91 | the demo reply starts with "[Demo Mode] ", names the intensity, quotes the user's message and names the profile's horoscope sign, or "inner" without one |
| NewmeChat.TurnRows | supabase/functions/newme-chat/index.ts:94-109 | two rows, user message then reply, with the same session, user and memory flag |
| NewmeChat.Handle | supabase/functions/newme-chat/index.ts:17-161 | the handler's early-return steps give exactly the turn `ChatTurn` describes |
| NewmeChat.AuthGate | supabase/functions/newme-chat/index.ts:18-25 | OPTIONS gets an empty reply and a missing Authorization header gets 401, with no model call and no storage |
| NewmeChat.AnsweredTurnsStoreTwoRows | supabase/functions/newme-chat/index.ts:94-161 | past the gate every answer is 200 or a 500 error; rows are stored iff the answer is 200, and they are the turn's two rows |
| NewmeChat.UpstreamStatusIgnored | supabase/functions/newme-chat/index.ts:131-132 | two model answers that differ only in HTTP status give the same turn |
| NewmeChat.DemoModeWithoutKey | supabase/functions/newme-chat/index.ts:86-114 | without an API key the model is not called and the reply is the demo text |
| NewmeChat.ModelRequest | supabase/functions/newme-chat/index.ts:116-129 | with a key the model gets the system prompt then the user's message; without consent the prompt has an empty context |
| ImageGateway.OrDefault | supabase/functions/image-studio/index.ts:28 | a missing or empty value falls back to the default, otherwise it is kept |
| ImageGateway.BuildMessages | supabase/functions/image-studio/index.ts:21-52 | messages exist iff the action is "generate", or "edit" with an image; generate sends the prompt or its default; edit sends a text part and then the image |
| ImageGateway.EditCarriesImage | supabase/functions/image-studio/index.ts:31-49 | an edit request carries exactly the URL it was given, after the text part |
| ImageGateway.FailureFor | supabase/functions/image-studio/index.ts:69-85 | 429 and 402 pass through with their messages; any other failing status becomes 500 |
| ImageGateway.FailureNamesStatus | supabase/functions/image-studio/index.ts:84 | the 500 message names the gateway status, which reads back from it |
| ImageGateway.Handle | supabase/functions/image-studio/index.ts:8-112 | the handler's assignments and early returns give exactly the outcome `ImageOutcome` describes |
| ImageGateway.KeyCheckedFirst | supabase/functions/image-studio/index.ts:15-19 | without an API key the answer is 500 and nothing is built or sent, whatever the action |
| ImageGateway.GatewayCalledIff | supabase/functions/image-studio/index.ts:21-67 | the gateway is called iff the request parsed, the key is set and the action is valid, and then with the built messages |
| ImageGateway.ResponseShapes | supabase/functions/image-studio/index.ts:69-110 | every answer is an OPTIONS reply, a 200 with a non-empty image, or a 429/402/500 failure; 429 and 402 come only from the same gateway status |
| VerifyAdmin.RoleFlags | supabase/functions/verify-admin/index.ts:64-66 | isAdmin iff the roles include admin or super_admin; isSuperAdmin iff they include super_admin; a missing list is empty |
| VerifyAdmin.SuperAdminIsAdmin | supabase/functions/verify-admin/index.ts:65-66 | a super admin is always an admin |
| VerifyAdmin.PlainUsersGetNoFlags | supabase/functions/verify-admin/index.ts:64 | no list, an empty list or a list of "user" roles grants no flag |
| VerifyAdmin.FlagsMonotone | supabase/functions/verify-admin/index.ts:64-66 | flags depend only on which roles occur; more roles never remove a flag |
| VerifyAdmin.Handle | supabase/functions/verify-admin/index.ts:14-81 | the handler's early returns give exactly the answer `VerifyOutcome` describes |
| VerifyAdmin.ErrorsGrantNothing | supabase/functions/verify-admin/index.ts:20-80 | every non-200 answer is a 401 or 500 with an error and both flags false; a 200 has no error and the stored roles' flags |
| VerifyAdmin.MissingHeaderFirst | supabase/functions/verify-admin/index.ts:21-27 | without a header the answer is 401 whatever the lookups would give |
| VerifyAdmin.AnswersKeepSuperAdminIsAdmin | supabase/functions/verify-admin/index.ts:64-73 | in every answer isSuperAdmin implies isAdmin |
| AdminRoleHook.RoleState.constructor | src/hooks/useAdminRole.tsx:14-19 | the initial state: loading, no flags, no error |
| AdminRoleHook.RoleState.Check | src/hooks/useAdminRole.tsx:21-85 | while auth loads nothing changes; otherwise loading ends; no user gives no flags and no error; a missing backend, a query error or an exception gives no flags and an error; rows give the server's flags |
| Schema.ParseRole | src/integrations/supabase/types.ts:752 | a spelling reads back as the role that has it, or none |
| Schema.ParseIntensity | src/integrations/supabase/types.ts:756 | a spelling reads back as the intensity that has it, or none |
| Schema.ParseLeadStatus | src/integrations/supabase/types.ts:757 | a spelling reads back as the status that has it, or none |
| Schema.ParseTier | src/integrations/supabase/types.ts:759 | a spelling reads back as the tier that has it, or none |
| Schema.ParseVisibility | src/integrations/supabase/types.ts:753 | a spelling reads back as the visibility that has it, or none |
| Schema.NamesRoundTrip | src/integrations/supabase/types.ts:752-759 | every stored spelling reads back as the value written |
| VoiceChat.FirstStopWord | src/pages/VoiceChat.tsx:125-131 | the stop word found is one of the listed words |
| VoiceChat.FirstStopWordSpec | src/pages/VoiceChat.tsx:125-131 | the word found is contained in the input and no earlier listed word is; none is found iff no word is contained |
| VoiceChat.FindStopWord | src/pages/VoiceChat.tsx:125-131 | the loop over the stop words finds the first one the lower-cased input contains |
| VoiceChat.StopWordOrder | src/pages/VoiceChat.tsx:44 | input holding "pause" pauses whatever else it holds; a word like "background" is taken for "ground" |
| VoiceChat.ModeIndex | src/pages/VoiceChat.tsx:187-188 | the position of an intensity in the mode list |
| VoiceChat.NextIntensity | src/pages/VoiceChat.tsx:187-189 | the next intensity always differs from the current one |
| VoiceChat.IntensityCycle | src/pages/VoiceChat.tsx:187-189 | soft → direct → no_mercy → soft; three switches return to the start |
| VoiceChat.NumberOr | src/pages/VoiceChat.tsx:62-63 | a missing or zero counter falls back to the default |
| VoiceChat.RemainingMinutes | src/pages/VoiceChat.tsx:62-64 | never negative; 0 iff used ≥ limit; otherwise remaining + used = limit, with used defaulting to 0 and the limit to 5 |
| VoiceChat.StarterMinutes | src/pages/VoiceChat.tsx:62-64 | no subscription, or a zero limit, gives 5 minutes; 5 used of 5 gives 0 |
| VoiceChat.RouteOf | src/pages/VoiceChat.tsx:116-131 | input is ignored iff it is blank or nobody is signed in; it is dropped for want of a session only when there was none and none could be created |
| VoiceChat.SentInputs | src/pages/VoiceChat.tsx:116-131 | input is sent iff it is non-blank, the user is signed in, a session exists or was created, and no stop word occurs; an existing session is reused |
| VoiceChat.PauseAlwaysPauses | src/pages/VoiceChat.tsx:125-131 | any input saying "pause", in any letter case, is intercepted as Pause |
| VoiceChat.ChatPage.constructor | src/pages/VoiceChat.tsx:51-60 | empty transcript, direct intensity, no active session, no session id, not processing or recording |
| VoiceChat.ChatPage.HandleStopWord | src/pages/VoiceChat.tsx:182-193 | "pause" ends the active session, "switch tone" moves to the next intensity, the others change nothing |
| VoiceChat.ChatPage.LoadPreference | src/pages/VoiceChat.tsx:77-81 | a saved profile intensity replaces the current one |
| VoiceChat.ChatPage.CycleIntensity | src/pages/VoiceChat.tsx:238-240 | the header button moves to the next intensity |
| VoiceChat.ChatPage.EndSession | src/pages/VoiceChat.tsx:269 | the End button deactivates the session |
| VoiceChat.ChatPage.Exchange | src/pages/VoiceChat.tsx:133-179 | the user's message is appended, then the reply if there is one; the session becomes active and processing ends |
| VoiceChat.ChatPage.ProcessUserInput | src/pages/VoiceChat.tsx:116-180 | against `RouteOf`: a created session becomes current; a stop word is handled and nothing is shown or sent; sent input is appended with its reply and sent with the memory consent (missing counts as consent) and the intensity in force |
| VoiceChat.ChatPage.SubmitText | src/pages/VoiceChat.tsx:195-199 | blank text does nothing; otherwise the box is cleared and the typed text goes through `processUserInput` with the same routing, session, request, transcript, activity and intensity outcome |
| VoiceChat.ChatPage.StartRecording | src/pages/VoiceChat.tsx:201-212 | recording is refused iff no minutes remain, and starts otherwise |
| VoiceChat.ChatPage.StopRecording | src/pages/VoiceChat.tsx:214-217 | recording stops |
| ImageStudio.ActionFor | src/pages/ImageStudio.tsx:177 | the action is edit iff the active tab is "edit" |
| ImageStudio.StudioPage.constructor | src/pages/ImageStudio.tsx:102-106 | edit tab, no upload, no generated image, empty prompt, not processing |
| ImageStudio.StudioPage.Upload | src/pages/ImageStudio.tsx:110-129 | a file over 5 MiB is refused with no change (exactly 5 MiB passes); an accepted file becomes the upload and clears the generated image |
| ImageStudio.StudioPage.ProcessImage | src/pages/ImageStudio.tsx:131-166 | the payload carries the upload only for an edit with an upload; only a reply with an image replaces the generated one; processing ends after every call |
| ImageStudio.StudioPage.PresetClick | src/pages/ImageStudio.tsx:168-178 | refused with no change in the edit tab without an upload; otherwise the preset is sent with the tab's action, and the image function accepts what is sent |
| ImageStudio.StudioPage.CustomPrompt | src/pages/ImageStudio.tsx:180-198 | a blank prompt is refused first, then an edit without an upload; otherwise the prompt is sent with the tab's action, and the image function accepts it |
| ImageStudio.StudioPage.SelectTab | src/pages/ImageStudio.tsx:238 | switching tabs sets the active tab, which decides the action later requests carry |
| ImageStudio.StudioPage.Reset | src/pages/ImageStudio.tsx:211-218 | clears the upload, the generated image and the prompt |
| ImageStudio.BodyOf | src/pages/ImageStudio.tsx:135-143 | the payload as the image function reads its action, prompt and image |
| ImageStudio.PayloadsAccepted | src/pages/ImageStudio.tsx:135-139 | a generate payload is always accepted by the image function; an edit payload iff it carries a non-empty image |
| AdminAssessments.TextOr | src/pages/admin/AdminAssessments.tsx:147-155 | the value falls back to the default exactly when it is missing or empty (or already the default) |
| AdminAssessments.NumberOr | src/pages/admin/AdminAssessments.tsx:151-152 | the value falls back to the default exactly when it is missing or zero (or already the default) |
| AdminAssessments.FormFor | src/pages/admin/AdminAssessments.tsx:144-162 | opening a row: icon Brain, 10 minutes and public by default, active unless false, tags [] when missing, questions [] unless an array |
| AdminAssessments.EmptyRowOpensInitialForm | src/pages/admin/AdminAssessments.tsx:144-202 | a row with every column missing opens as the initial form: the defaults of editing and of resetting agree |
| AdminAssessments.WithoutTagSpec | src/pages/admin/AdminAssessments.tsx:214-219 | removing a tag keeps every other tag, in order, and only those |
| AdminAssessments.WithoutTagCount | src/pages/admin/AdminAssessments.tsx:214-219 | on a duplicate-free list, removing a present tag shortens it by one, an absent one changes nothing, and it stays duplicate-free |
| AdminAssessments.SubmittedTagsSpec | src/pages/admin/AdminAssessments.tsx:104 | saving drops exactly the whitespace-only tags and keeps the order of the rest |
| AdminAssessments.RemoveAt | src/pages/admin/AdminAssessments.tsx:238-241 | an index in range is removed: one shorter, the others in order; any other index removes nothing |
| AdminAssessments.WithField | src/pages/admin/AdminAssessments.tsx:230-234 | only the named field of the question changes |
| AdminAssessments.VisibilityLabel | src/pages/admin/AdminAssessments.tsx:243-250 | the three known values get fixed labels; any other value is shown as is |
| AdminAssessments.VisibilityLabelsDistinct | src/pages/admin/AdminAssessments.tsx:245-247 | the three labels differ |
| AdminAssessments.Editor.constructor | src/pages/admin/AdminAssessments.tsx:55-70 | the editor starts from the initial form and an empty tag input |
| AdminAssessments.Editor.Reset | src/pages/admin/AdminAssessments.tsx:185-202 | restores the initial form and clears the tag input |
| AdminAssessments.Editor.Open | src/pages/admin/AdminAssessments.tsx:144-162 | the form becomes the row's form with its defaults |
| AdminAssessments.Editor.AddTag | src/pages/admin/AdminAssessments.tsx:204-212 | the trimmed input is appended and the input cleared only if it is non-empty and new; otherwise nothing changes; tags stay duplicate-free |
| AdminAssessments.Editor.RemoveTag | src/pages/admin/AdminAssessments.tsx:214-219 | the tag is gone, the other tags stay in order, duplicate-freedom is kept |
| AdminAssessments.Editor.AddQuestion | src/pages/admin/AdminAssessments.tsx:221-226 | exactly one blank question with four empty options is appended |
| AdminAssessments.Editor.UpdateQuestion | src/pages/admin/AdminAssessments.tsx:228-236 | only the named field of question i changes |
| AdminAssessments.Editor.RemoveQuestion | src/pages/admin/AdminAssessments.tsx:238-241 | exactly question i is removed, the rest keep their order |
| Events.FilterEventsSpec | src/pages/Events.tsx:32-50 | the list is an order-preserving subsequence holding exactly the events the filter keeps, as many as it keeps |
| Events.NoFilterKeepsAll | src/pages/Events.tsx:33 | no query and type "all" keep every event |
| Events.ToLowerIdempotent | src/pages/Events.tsx:37-41 | lower-casing twice is lower-casing once |
| Events.SearchIgnoresCase | src/pages/Events.tsx:36-42 | a query and its lower-cased form keep the same events |
| Events.TitleHitsKept | src/pages/Events.tsx:38-39 | a title containing the query in any letter case is kept |
| Events.TypeFilterSplits | src/pages/Events.tsx:44-47 | "online" keeps exactly the online events; any other type but "all" keeps exactly the others |
| Events.SpotsLeft | src/pages/Events.tsx:109 | capacity less spots taken (missing counts as 0), unknown when the capacity is missing or 0 |
| Events.ScarcityBadgeIff | src/pages/Events.tsx:134 | the badge shows iff the capacity is known and at most 10 spots remain |
| Events.FreeForMember | src/pages/Events.tsx:110 | free iff the event grants member access and the tier is transformation |
| Events.PriceLabel | src/pages/Events.tsx:173-176 | "Free" iff the price is 0 or the member gets it free; otherwise the price |
| Events.FreeOnlyForTransformation | src/pages/Events.tsx:110-176 | a priced event shows as free only to a transformation member on a member-access event |
| EventDetail.BuiltInEventBookings | src/pages/EventDetail.tsx:16-64 | the event the page always shows (id "1", 50 seats, 38 taken, price 49, no member access) has 12 spots left, is open, is never free, and every booking of it is a pending row charging 49 |
| EventDetail.SpotsLeft | src/pages/EventDetail.tsx:93 | spots left plus spots taken is the capacity |
| EventDetail.BookingOpenIff | src/pages/EventDetail.tsx:302-389 | booking controls show iff fewer spots are taken than the capacity; otherwise "sold out" |
| EventDetail.FreeForMember | src/pages/EventDetail.tsx:94-95 | free iff the event grants member access and the tier is transformation |
| EventDetail.BookingFor | src/pages/EventDetail.tsx:116-122 | the booking row is pending; member access iff free for the member; amount 0 then, the price otherwise |
| EventDetail.BookingCharges | src/pages/EventDetail.tsx:116-122 | anyone but a transformation member on a member-access event pays the price without member access |
| EventDetail.DetailPage.constructor | src/pages/EventDetail.tsx:86-90 | not booking, not submitting, no lead yet, empty form |
| EventDetail.DetailPage.BookTicket | src/pages/EventDetail.tsx:97-144 | without a user nothing is inserted; otherwise the pending row is inserted when a backend exists, booking succeeds iff the insert does, and booking ends |
| EventDetail.DetailPage.SubmitLead | src/pages/EventDetail.tsx:146-187 | a blank name or number is refused with nothing stored; otherwise both are stored trimmed with the event and "event_page", and thanks show iff the insert succeeds |
| EventDetail.StoredLeadsNonEmpty | src/pages/EventDetail.tsx:147-165 | a stored lead never has an empty name or number |
| EventDetail.SplitLabelLead | src/pages/EventDetail.tsx:234 | the label is the text before the first "**:" and contains none; there is a rest iff the body has a "**:" |
| EventDetail.SplitLabelRest | src/pages/EventDetail.tsx:234 | label, marker and rest start the body, and the rest holds no further "**:" |
| EventDetail.PrefixesExclusive | src/pages/EventDetail.tsx:230-242 | a "## " line is never a "- " line, and a "- **" line is one |
| EventDetail.Classify | src/pages/EventDetail.tsx:229-251 | in order: "## " heading with the prefix removed, "- **" bold item, "- " bullet with the prefix removed, other non-empty paragraph, empty dropped |
| EventDetail.BoldLabel | src/pages/EventDetail.tsx:233-238 | a bold line shows the text after "- **" up to the first "**:" |
| EventDetail.Layout | src/pages/EventDetail.tsx:229-251 | the description split at line breaks renders as one block per non-empty line, in order, each line classified (through `BlocksAreClassifiedLines`) |
| EventDetail.Blocks | src/pages/EventDetail.tsx:229-251 | one block per non-empty line |
| EventDetail.BlocksAreClassifiedLines | src/pages/EventDetail.tsx:229-251 | the blocks are the non-empty lines, in order, each classified |
| EventDetail.CountEmpty | src/pages/EventDetail.tsx:250 | the number of empty lines, at most the number of lines |
| EventDetail.BlocksNonEmpty | src/pages/EventDetail.tsx:250 | no block is an empty paragraph |
| AdminLists.FilterLeadsSpec | src/pages/admin/AdminLeads.tsx:109-115 | the lead list is an order-preserving subsequence holding exactly the matching leads, as many as there are matches |
| AdminLists.NoQueryKeepsAllLeads | src/pages/admin/AdminLeads.tsx:109-115 | an empty query with no status keeps every lead |
| AdminLists.NumberSearchIsLiteral | src/pages/admin/AdminLeads.tsx:112 | the number search is a literal substring test: "+1555" does not find "+1 555" |
| AdminLists.StatusCount | src/pages/admin/AdminLeads.tsx:119-122 | a status count never exceeds the number of leads |
| AdminLists.Counts | src/pages/admin/AdminLeads.tsx:117-123 | the "all" count is the number of leads |
| AdminLists.CountsAddUp | src/pages/admin/AdminLeads.tsx:117-123 | when every lead has one of the four statuses, the four counts add up to all |
| AdminLists.DigitsOnlySpec | src/pages/admin/AdminLeads.tsx:249 | the link holds exactly the digits of the number, in order, and only digits, as many as the number has |
| AdminLists.DigitsUnchanged | src/pages/admin/AdminLeads.tsx:249 | a number of digits only links as written |
| AdminLists.FilterUsersSpec | src/pages/admin/AdminUsers.tsx:122-128 | order-preserving; as many users as match; the combined filter is the search filter then the tier filter; an empty query with no tier keeps everyone |
| AdminLists.TierFilterExact | src/pages/admin/AdminUsers.tsx:126 | a selected tier keeps only users of that tier |
| AdminLists.FilterByTitleSpec | src/pages/admin/AdminEvents.tsx:100-102 | the title search is order-preserving, keeps as many events as match, and an empty query keeps every event |
| AdminLists.PublishedCount | src/pages/admin/AdminEvents.tsx:195 | the published figure never exceeds the number of events |
| AdminLists.TotalsSplit | src/pages/admin/AdminEvents.tsx:203-211 | the booking and revenue sums over two lists add up |
| AdminLists.RevenueBounds | src/pages/admin/AdminEvents.tsx:211 | revenue is at most the bookings times the highest price, and free events bring in nothing |
| Text.Trim | src/pages/Onboarding.tsx:173 | `trim` removes JavaScript whitespace from both ends and nothing else |
| Text.TrimEmptyIff | src/pages/EventDetail.tsx:147 | a string trims to empty iff it is all whitespace |
| Text.RemoveFirst | src/pages/EventDetail.tsx:231 | `replace` of a string removes its first occurrence: the prefix when the string starts with it, nothing when it is absent |
| Text.SplitJoin | supabase/functions/newme-chat/index.ts:60-63 | lines without the separator, joined and split again, come back unchanged |
| Text.Utf16Length | src/pages/Onboarding.tsx:173 | `.length` counts characters outside the Basic Multilingual Plane twice |
| Text.FilterIsSubsequence | src/pages/Events.tsx:32 | `filter` keeps an order-preserving subsequence |
| Text.FilterMembership | src/pages/Events.tsx:32 | an element survives `filter` iff it occurs and passes |
| Text.FilterConjunction | src/pages/admin/AdminUsers.tsx:127 | filtering by a conjunction is filtering twice |
| Text.CountIsFilterLength | src/pages/admin/AdminLeads.tsx:119-122 | `filter(...).length` counts the passing elements |

## Left out

- Page markup, styling, routing, navigation, toasts and console logging. They carry no rules.
- Database and network calls are inputs: the user lookup, the role, profile and memory queries, the inserts and their success, the model and image gateway answers, and whether a backend is configured.
- Timers and asynchronous callbacks are collapsed into one step. This covers the 1.5 s delay before a quiz result, the session-duration interval, the `FileReader` that reads an upload, and `crypto.randomUUID`.
- Assessment.Score: computes the exact half-up rounding of 100·total/(3n) with integers, not `Math.round` on floating point. The two agree for the shipped n (8 and 10), where every halfway case is exact in binary.
- The category descriptions and the question texts of the quiz definitions are left out; only ids, option counts, titles and ranges are kept.
- Onboarding.Horoscope: takes the (month, day) the browser reads from the date string. The string's parsing, with its time-zone shift, is not modelled.
- Text.ToLower: lower-cases ASCII letters only; the full Unicode case mapping of `toLowerCase` is not modelled.
- NewmeChat.Persona: reads only the three intensity names. A value naming a property every JavaScript object has (such as "constructor") is treated like any other unknown value.
- JSON fields of an unexpected type (a number where a string is expected, and the like) are not modelled. Outside the chat request, each field is present with its type or missing.
- NewmeChat.ChatBody: holds all four fields (`message`, `intensity`, `sessionId`, `memoryConsent`) as present, because the chat page always sends them (src/pages/VoiceChat.tsx:152-157). A request from another client that leaves one out is not modelled. In the source, a missing `memoryConsent` would be falsy and turn the memory context off.
- AdminAssessments.Editor.UpdateQuestion: requires an index inside the list, because the source throws otherwise. The in-place change of the question object is modelled as a fresh value. In the source, the edit form shares its questions array with the fetched assessment row (src/pages/admin/AdminAssessments.tsx:157), so an edit that is then cancelled stays in the page's list until it is fetched again; the model does not capture that aliasing.
- Assessment.Lookup: models the quiz table as holding only its six keys. In the source it is a plain JavaScript object, so a route id such as "constructor", "toString" or "__proto__" finds an inherited value rather than nothing, and the page then fails reading its questions (src/pages/AssessmentDetail.tsx:209, :228). That crash is not modelled.
- EventDetail.DetailPage: accepts any event. The page itself ignores the route id and always shows the built-in event (src/pages/EventDetail.tsx:81, :92); `BuiltInEventBookings` states what that event gives.
- AdminLists: the filters take any list. The admin lead, user and event pages filter built-in sample arrays (src/pages/admin/AdminLeads.tsx:43, src/pages/admin/AdminUsers.tsx:37, src/pages/admin/AdminEvents.tsx:45) whose contents are not modelled.
- The free-form `scoring_logic` and `result_narratives` objects of an assessment are carried unchanged by every editor operation and are not modelled.
- Prices, capacities and minute counters are whole numbers; fractional amounts and `toLocaleString` formatting are not modelled.
- Onboarding.Complete: the result of the starter-subscription insert is not checked by the source, and it is not modelled.
- The assessment deletion, the list fetching and the download button of the image studio only call the backend or the browser, and are not modelled.
- The session insert on the chat page is an input (`created`). The page's user and auth-session checks are one input (`signedIn`).

## Findings

| source | as written | input that shows it | evidently intended | confidence | as-written member | corrected member |
|---|---|---|---|---|---|---|
| src/lib/validation.ts:67-72 | `sanitizeString` trims first and strips control characters afterwards, so whitespace in front of a stripped control survives | "a \u0001" sanitises to "a " (and sanitising that again gives "a") | a sanitised string has no surrounding whitespace, as stripping first and then trimming gives | not executed; medium | Validation.SanitizeKeepsPadding | Validation.SanitizeTrimmedProperties |
