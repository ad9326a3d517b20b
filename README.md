# Support ticket bot — a verified model

This project models the core of a Spanish-language support bot and the two mock services it talks to.

- **Conversation engine.** It keeps one context object per conversation in an in-memory store. Each user message moves the context through a small state machine:
  - an idle state that reads the intent ("crear ticket" or a status query);
  - a four-step ticket creation: name, e-mail, description, confirmation;
  - a retry cap of five failed inputs per step;
  - a `cancelar` command;
  - a 30-minute inactivity timeout that only affects an active flow.
- **Input validators.** They check conversation ids, messages, names, e-mail addresses and descriptions.
- **Ticket client.** It caches one OAuth token, asks for a new one with the client-credentials grant when the cached one is missing or stale, and runs a business call again once after a 401.
- **Mock ticket API.** An in-memory table with counter-based `TCK-NNN` ids and case-insensitive lookup.
- **Mock OAuth server.** One process-wide token, handed out for 30 minutes, checked as a `Bearer ` header. The grant follows section 4.4 of RFC 6749 and the header follows section 2.1 of RFC 6750.

## How each part is modelled

- **State that changes in place is modelled with classes.** These are `ConversationContext`, `ConversationStateService`, `ConversationFlowService`, `ExternalTicketService`, `OAuthController` and `TicketsController`.
  - Their methods mirror the source's handlers step by step.
  - Each method is proved against a pure specification function of the old state. Examples: `FlowSpec.Process` and its step functions, `TicketClient.Refresh` / `Execute`, `MockTickets.CreateDecision`, `MockOAuth.GrantDecision`.
  - The properties the source promises are then proved about those functions as lemmas.
- **The validators are pure functions.** The one loop, the scan of the typo table, is a method proved equal to a function.
- **The clock, the network and remote results are parameters.**
  - Time is whole seconds (`Instant`).
  - The token endpoint's and the ticket API's answers are oracle values.
  - The flow receives the outcome of the remote create and status calls as `CreateOutcome` and `StatusOutcome`.
  - The ticket client records every request it puts on the wire in a ghost field `sent`.
- **Modules:**
  - `Common`, `Text`: nullable values, time, C# string operations.
  - `ValidationConstants`, `Models`: limits, enums, `TicketData`, `ConversationContext`.
  - `StateService`.
  - `Validation` and `ValidationExamples`.
  - `FlowSpec`, `FlowProperties` and `FlowService`: the conversation engine.
  - `TicketClient`.
  - `MockOAuth` and `MockTickets`.
  - `Integration`: facts that span the client, the servers and the flow.

## Model

| member | source | states |
|---|---|---|
| Common.SubInt32 | BotEngine/Services/ExternalTicketService.cs:159 | C# `int` subtraction `ExpiresIn - 300`: the exact difference when it fits in 32 bits, and otherwise a value congruent to it modulo 2^32 |
| Common.UpdateOverwrites | BotEngine/Services/ConversationStateService.cs:26-31 | storing twice under one key keeps only the second value (used to close the store's frame reasoning) |
| Text.Lower | BotEngine/Services/InputValidationService.cs:106 | `ToLowerInvariant` keeps the length and lower-cases each character independently |
| Text.Upper | MockServices/Controllers/TicketsController.cs:70 | `ToUpper` keeps the length and upper-cases each character independently |
| Text.Trim | BotEngine/Services/InputValidationService.cs:39 | `Trim()` is the slice of the input left after dropping a blank prefix and a blank suffix; it neither starts nor ends with white space |
| Text.TrimIdempotent | BotEngine/Services/InputValidationService.cs:82 | trimming twice is trimming once |
| Text.TrimEmptyIffBlank | BotEngine/Services/InputValidationService.cs:34-39 | the trim is empty exactly when `IsNullOrWhiteSpace` holds for the (non-null) string |
| Text.ReplaceAfterPrefix | BotEngine/Services/InputValidationService.cs:146 | `Replace` on `prefix + pattern`, where no character of the prefix starts the pattern, replaces only that trailing occurrence |
| Text.ReplaceUniqueSuffix | BotEngine/Services/InputValidationService.cs:144-146 | when the pattern ends the string and its first character occurs nowhere before that, `Replace` swaps exactly the suffix |
| Models.DefaultStateIsIdle | BotEngine/Models/ConversationContext.cs:6-33 | a new or reset context is idle, has no step, an incomplete draft and no failures, and is not expired at the instant it was stamped |
| Models.ConversationContext.constructor | BotEngine/Models/ConversationContext.cs:6-20 | a new context carries its id and the field defaults, with its activity stamped at creation |
| Models.ConversationContext.Reset | BotEngine/Models/ConversationContext.cs:26-33 | every field returns to its default and the activity is stamped at `now`; the id is unchanged |
| Models.ConversationContext.ResetAttempts | BotEngine/Models/ConversationContext.cs:35-38 | only the failure count changes, to 0 |
| StateService.ConversationStateService.constructor | BotEngine/Services/ConversationStateService.cs:9 | the store starts empty |
| StateService.ConversationStateService.GetOrCreateContext | BotEngine/Services/ConversationStateService.cs:17-24 | a stored id returns the same object and changes nothing; an unknown id stores a fresh default context under that id; every context stays stored under its own id |
| StateService.ConversationStateService.UpdateContext | BotEngine/Services/ConversationStateService.cs:26-31 | the activity is stamped at `now` and the context is stored under its own id; the other entries are unchanged |
| StateService.ConversationStateService.ClearContext | BotEngine/Services/ConversationStateService.cs:33-39 | a present id has its stored object reset in place, seen by every holder; an absent id creates nothing; the key set never changes |
| Validation.WordRunEnd | BotEngine/Services/InputValidationService.cs:26 | the `\w+` run from a position: every character inside is a word character and the one after is not |
| Validation.SpaceRunEnd | BotEngine/Services/InputValidationService.cs:26 | the `\s*` run from a position: every character inside is white space and the one after is not |
| Validation.CountLetters | BotEngine/Services/InputValidationService.cs:168 | `Count(char.IsLetter)` is at most the length; it is 0 exactly when no character is a letter, and the length exactly when all are |
| Validation.RemoveControls | BotEngine/Services/InputValidationService.cs:75 | the sanitized text is no longer than the input and keeps no control character other than `\n` and `\r` |
| Validation.RemoveControlsAppend | BotEngine/Services/InputValidationService.cs:75 | the filter works character by character: it distributes over concatenation |
| Validation.RemoveControlsKeeps | BotEngine/Services/InputValidationService.cs:75 | text without control characters other than line breaks passes unchanged |
| Validation.RemoveOneControl | BotEngine/Services/InputValidationService.cs:75 | removing one control character between two clean pieces joins them |
| Validation.ValidateConversationId | BotEngine/Services/InputValidationService.cs:32-52 | null or blank input is refused as "required", and nothing else is; an accepted id is the trim of the input, 1 to 100 characters, all in `[A-Za-z0-9_-]` |
| Validation.ConversationIdAcceptedIff | BotEngine/Services/InputValidationService.cs:32-52 | an id is accepted exactly when its trim is 1 to 100 identifier characters |
| Validation.ValidateMessage | BotEngine/Services/InputValidationService.cs:54-78 | the sanitizer as written. Each error is an iff: empty for null or blank input; too long for a trim over 2000 characters; not allowed for a trim within the limit that is dangerous. An accepted message is its trim with the control characters (other than line breaks) removed, and the trim, before sanitizing, matched no dangerous pattern |
| Validation.MessageAccepted | BotEngine/Services/InputValidationService.cs:56-77 | a message is accepted exactly when its trim is non-empty, at most 2000 characters and not dangerous, and is then returned trimmed with its control characters removed |
| Validation.ValidateMessageSanitizedFirst | BotEngine/Services/InputValidationService.cs:68-77 | the corrected sanitizer: the returned text is the trim with the control characters removed, and that text itself matches no dangerous pattern, besides the other guarantees of the original |
| Validation.ValidateName | BotEngine/Services/InputValidationService.cs:80-114 | the checks run in the source's order: "too short" exactly when the trim is under 2 characters; each later error implies every earlier check passed |
| Validation.DistinctCountBelowTwo | BotEngine/Services/InputValidationService.cs:100 | `Distinct().Count() < 2` holds exactly when every character equals the first |
| Validation.ValidateNameAcceptsIff | BotEngine/Services/InputValidationService.cs:80-114 | a name is accepted iff its trim has 2 to 100 characters from `[\p{L}\s\-'.]`, two different characters, and in lower case none of the eight command words |
| Validation.ValidateNameTrimmed | BotEngine/Services/InputValidationService.cs:82 | validating the stored (trimmed) name gives the same verdict as the raw input |
| Validation.CommonTyposAreDomains | BotEngine/Services/InputValidationService.cs:131-140 | every misspelling in the typo table starts with `@` |
| Validation.FirstTypo | BotEngine/Services/InputValidationService.cs:142-148 | a reported typo comes from the table and ends the address |
| Validation.FirstTypoNullIff | BotEngine/Services/InputValidationService.cs:142-150 | no typo is reported exactly when no misspelling in the table ends the address |
| Validation.FindTypo | BotEngine/Services/InputValidationService.cs:142-148 | the `foreach` with early return finds the first table entry whose misspelling ends the address, or none |
| Validation.ValidateEmail | BotEngine/Services/InputValidationService.cs:116-151 | the method's guard chain and loop reach the same verdict as the e-mail specification |
| Validation.EmailSingleAt | BotEngine/Services/InputValidationService.cs:18 | an address matching the pattern has exactly one `@` |
| Validation.EmailAcceptedIff | BotEngine/Services/InputValidationService.cs:116-151 | an address is accepted iff its trimmed lower-cased form is at most 254 characters, matches the pattern and ends in none of the six typos |
| Validation.TypoReplacesSuffix | BotEngine/Services/InputValidationService.cs:144-146 | in a valid address, `Replace` of a misspelt domain that ends it swaps only that suffix |
| Validation.EmailTypoSuggestion | BotEngine/Services/InputValidationService.cs:142-147 | the suggestion keeps the local part and replaces the misspelt domain with its correction |
| Validation.EmailVerdictNormalized | BotEngine/Services/InputValidationService.cs:118 | validating the stored (trimmed, lower-cased) address gives the same verdict as the raw input |
| Validation.ValidateDescription | BotEngine/Services/InputValidationService.cs:153-180 | accepted iff the trim has 10 to 1000 characters, at least 5 letters and no dangerous pattern; "too short" exactly for under 10; each later error implies the earlier checks passed |
| Validation.ValidateDescriptionTrimmed | BotEngine/Services/InputValidationService.cs:155 | validating the stored (trimmed) description gives the same verdict |
| ValidationExamples.SplitScriptTagIsNotDangerous | BotEngine/Services/InputValidationService.cs:26-27 | `<scr\x01ipt>` matches none of the dangerous alternatives |
| ValidationExamples.ScriptTagIsDangerous | BotEngine/Services/InputValidationService.cs:26-27 | `<script>` matches the pattern |
| ValidationExamples.SanitizedMessageCanBeDangerous | BotEngine/Services/InputValidationService.cs:69-77 | `<scr\x01ipt>` is accepted and comes out as `<script>`, which is dangerous |
| ValidationExamples.SplitScriptTagPasses | BotEngine/Services/InputValidationService.cs:61-69 | the split tag is already trimmed and passes the pattern test |
| ValidationExamples.SplitScriptTagSanitized | BotEngine/Services/InputValidationService.cs:75 | removing the control character joins the split tag into `<script>` |
| ValidationExamples.OliverLooksLikeCommand | BotEngine/Services/InputValidationService.cs:106-111 | "Oliver" is refused as a command because its lower case contains "ver" |
| FlowSpec.DigitRunEnd | BotEngine/Services/ConversationFlowService.cs:15 | the `\d+` run from a position: every character inside is a digit and the one after is not |
| FlowSpec.FindTicketId | BotEngine/Services/ConversationFlowService.cs:15 | the leftmost position at or after `from` where `TCK-` (any case) and a digit start, or none |
| FlowSpec.ExtractTicketId | BotEngine/Services/ConversationFlowService.cs:418-422 | none exactly when no case-insensitive `TCK-\d` occurs; otherwise the leftmost match with its whole digit run, upper-cased, of the form `TCK-` and digits |
| FlowProperties.NameStepKeepsConsistent | BotEngine/Services/ConversationFlowService.cs:151-181 | the name step keeps the context reachable (attempts 0..4, draft fits the step) and reports 1..4 remaining attempts |
| FlowProperties.EmailStepKeepsConsistent | BotEngine/Services/ConversationFlowService.cs:183-218 | the same for the e-mail step |
| FlowProperties.DescriptionStepKeepsConsistent | BotEngine/Services/ConversationFlowService.cs:220-248 | the same for the description step |
| FlowProperties.CreateStepKeepsConsistent | BotEngine/Services/ConversationFlowService.cs:294-347 | the remote create, whatever it answers, keeps the context reachable |
| FlowProperties.ConfirmationStepKeepsConsistent | BotEngine/Services/ConversationFlowService.cs:261-292 | the confirmation step keeps the context reachable |
| FlowProperties.ActiveStepKeepsConsistent | BotEngine/Services/ConversationFlowService.cs:136-149 | every step of an active creation flow keeps the context reachable |
| FlowProperties.ProcessActive | BotEngine/Services/ConversationFlowService.cs:55-59 | a message other than "cancelar" to an active, unexpired flow goes to the step it is at |
| FlowProperties.ProcessCancel | BotEngine/Services/ConversationFlowService.cs:49-53 | "cancelar" to a context whose flow has not expired goes to the cancel handler |
| FlowProperties.ProcessIdle | BotEngine/Services/ConversationFlowService.cs:61-62 | a message other than "cancelar" to an idle context goes to intent detection |
| FlowProperties.ProcessKeepsConsistent | BotEngine/Services/ConversationFlowService.cs:30-63 | every message keeps a reachable context reachable: idle means no step, an empty draft and 0 failures; active means 0..4 failures and a draft holding exactly the accepted fields |
| FlowProperties.ActiveMessageKeepsConsistent | BotEngine/Services/ConversationFlowService.cs:55-59 | the active-flow half of the above |
| FlowProperties.IdleMessageKeepsConsistent | BotEngine/Services/ConversationFlowService.cs:61-62 | the idle half of the above |
| FlowProperties.DefaultStateConsistent | BotEngine/Models/ConversationContext.cs:6-20 | a new or reset context is reachable |
| FlowProperties.StoredFieldsPresent | BotEngine/Models/TicketData.cs:12-15 | fields stored by the three steps make the draft complete in the sense of `IsComplete` |
| FlowProperties.ConfirmationDraftComplete | BotEngine/Services/ConversationFlowService.cs:241-247 | whenever confirmation is asked, the draft is complete |
| FlowProperties.ExpiredFlowRestarts | BotEngine/Services/ConversationFlowService.cs:35-42 | an active flow idle for more than 30 minutes is reset and the message is otherwise ignored |
| FlowProperties.CancelLeavesIdle | BotEngine/Services/ConversationFlowService.cs:43-53 | "cancelar" in any case and spacing leaves the context idle; while idle it changes nothing and says so; an unexpired creation flow is reset and named "creación de ticket" |
| FlowProperties.IdleChangesOnlyOnCreate | BotEngine/Services/ConversationFlowService.cs:82-107 | while idle, the context changes iff the message is a creation request, which opens the flow at the name step with an empty draft |
| FlowProperties.CreateIntentBeatsStatus | BotEngine/Services/ConversationFlowService.cs:88-94 | a message that reads as both a creation and a status request starts the creation |
| FlowProperties.StatusQueryAnswers | BotEngine/Services/ConversationFlowService.cs:94-103 | a status request never changes the context; without an id it asks for one; with an id it shows the card, names the missing id, or reports the failure |
| FlowProperties.CreateIntentIff | BotEngine/Services/ConversationFlowService.cs:396-410 | the three fixed phrases add nothing: the intent is "ticket" plus an action word |
| FlowProperties.AffirmativeWins | BotEngine/Services/ConversationFlowService.cs:261-268 | an affirmative answer creates the ticket even if it is also negative |
| FlowProperties.NegatedAnswerConfirms | BotEngine/Services/ConversationFlowService.cs:424-434 | "no es correcto" is negative but also contains "correcto", so it confirms |
| FlowProperties.CreateOutcomes | BotEngine/Services/ConversationFlowService.cs:294-347 | a created ticket resets the context and announces its id; a null result or a failure keeps the draft at confirmation unless it is the fifth failure |
| FlowProperties.Run | BotEngine/Services/ConversationFlowService.cs:30-63 | a run of messages gives one reply per message |
| FlowProperties.RunCons | BotEngine/Services/ConversationFlowService.cs:30-63 | messages are handled in order, each from the state the previous one left |
| FlowProperties.RunKeepsConsistent | BotEngine/Services/ConversationFlowService.cs:30-63 | any sequence of messages keeps a reachable context reachable |
| FlowProperties.RejectedName | BotEngine/Services/ConversationFlowService.cs:155-170 | at any instant before the session expires, a refused name below the cap costs one attempt, stamps the activity and reports `5 - FailedAttempts` remaining; at the cap the context is reset |
| FlowProperties.RejectedNamesUntilCap | BotEngine/Services/ConversationFlowService.cs:155-170 | consecutive refused names, the first at any unexpired instant, count the remaining attempts down one by one, and the one that reaches 5 resets the context |
| FlowProperties.FirstRejectedName | BotEngine/Services/ConversationFlowService.cs:155-169 | the first refused name of a run below the cap, then the rest of the run |
| FlowProperties.LastRejectedName | BotEngine/Services/ConversationFlowService.cs:160-166 | the refused name that reaches the cap resets the context |
| FlowProperties.FiveRejectedNamesCancel | BotEngine/Services/ConversationFlowService.cs:155-170 | five refused names from a fresh name step report 4, 3, 2, 1 remaining and then reset |
| FlowProperties.CreateRequestStarts | BotEngine/Services/ConversationFlowService.cs:123-128 | a creation request while idle opens the flow at the name step with an empty draft |
| FlowProperties.AcceptedName | BotEngine/Services/ConversationFlowService.cs:172-175 | an accepted name is stored trimmed, clears the failures and moves to the e-mail step |
| FlowProperties.AcceptedEmail | BotEngine/Services/ConversationFlowService.cs:208-211 | an accepted address is stored trimmed and lower-cased and moves to the description step |
| FlowProperties.AcceptedDescription | BotEngine/Services/ConversationFlowService.cs:241-247 | an accepted description is stored trimmed and the summary of the draft is shown for confirmation |
| FlowProperties.ConfirmedCreates | BotEngine/Services/ConversationFlowService.cs:263-265 | a yes with a successful create resets the context and announces the id |
| FlowProperties.HappyPath | BotEngine/Services/ConversationFlowService.cs:30-347 | the full conversation gives the five expected replies, the draft holds the normalized fields, and the conversation ends idle |
| FlowService.ConversationFlowService.constructor | BotEngine/Services/ConversationFlowService.cs:18-28 | the engine works on the given store |
| FlowService.ConversationFlowService.ProcessMessage | BotEngine/Services/ConversationFlowService.cs:30-63 | the conversation's stored context (a new default one if absent) moves to the state `Process` gives, the reply is its reply, no other conversation changes, and the key set grows by at most this id |
| FlowService.ConversationFlowService.Dispatch | BotEngine/Services/ConversationFlowService.cs:43-62 | on an unexpired context, the object and the store snapshot move as `Process` says; no key changes |
| FlowService.ConversationFlowService.Route | BotEngine/Services/ConversationFlowService.cs:43-62 | "cancelar", then the active flow, then the intent, as `Process` orders them |
| FlowService.ConversationFlowService.HandleCancel | BotEngine/Services/ConversationFlowService.cs:65-79 | the context moves as the cancel step says |
| FlowService.ConversationFlowService.DetectIntentAndRespond | BotEngine/Services/ConversationFlowService.cs:82-107 | the context moves as the idle step says |
| FlowService.ConversationFlowService.HandleActiveFlow | BotEngine/Services/ConversationFlowService.cs:109-149 | the context moves as the step it is at says |
| FlowService.ConversationFlowService.StartCreateTicketFlow | BotEngine/Services/ConversationFlowService.cs:123-134 | the flow opens at the name step with an empty draft and the store entry is refreshed |
| FlowService.ConversationFlowService.CountFailure | BotEngine/Services/ConversationFlowService.cs:157-166 | one more failure stamped at `now`; at the cap the context is reset and the cap is reported |
| FlowService.ConversationFlowService.HandleNameInput | BotEngine/Services/ConversationFlowService.cs:151-181 | the context moves as the name step says |
| FlowService.ConversationFlowService.HandleEmailInput | BotEngine/Services/ConversationFlowService.cs:183-218 | the context moves as the e-mail step says |
| FlowService.ConversationFlowService.HandleDescriptionInput | BotEngine/Services/ConversationFlowService.cs:220-248 | the context moves as the description step says |
| FlowService.ConversationFlowService.HandleConfirmation | BotEngine/Services/ConversationFlowService.cs:261-292 | the context moves as the confirmation step says |
| FlowService.ConversationFlowService.CreateTicket | BotEngine/Services/ConversationFlowService.cs:294-347 | the context moves as the create step says for the remote call's outcome |
| TicketClient.ConfiguredCredentials | BotEngine/Services/ExternalTicketService.cs:136-137 | a missing setting falls back to "bot-client" / "bot-secret"; a present one is used as given |
| TicketClient.BusinessCalls | BotEngine/Services/ExternalTicketService.cs:92-106 | the count of business requests never exceeds the number of requests |
| TicketClient.ExternalTicketService.constructor | BotEngine/Services/ExternalTicketService.cs:18-19 | no token, expiry at the minimum, nothing sent |
| TicketClient.ExternalTicketService.EnsureValidToken | BotEngine/Services/ExternalTicketService.cs:108-119 | cache, requests sent and result are those of the refresh specification |
| TicketClient.ExternalTicketService.InvalidateAndRefreshToken | BotEngine/Services/ExternalTicketService.cs:121-170 | the double check, then the grant: cache, requests sent and result are those of the refresh specification |
| TicketClient.ExternalTicketService.Send | BotEngine/Services/ExternalTicketService.cs:54-61 | one request with the current header goes out; the status is read as the operation reads it; the cache is untouched |
| TicketClient.ExternalTicketService.ExecuteWithToken | BotEngine/Services/ExternalTicketService.cs:92-106 | cache, requests sent and result are those of the execute specification |
| TicketClient.ExternalTicketService.RunWithRetry | BotEngine/Services/ExternalTicketService.cs:96-105 | the run and the single retry after a 401 match the run specification |
| TicketClient.ExternalTicketService.CreateTicket | BotEngine/Services/ExternalTicketService.cs:38-66 | the create call with the token protocol |
| TicketClient.ExternalTicketService.GetTicketStatus | BotEngine/Services/ExternalTicketService.cs:68-89 | the status call with the token protocol |
| TicketClient.FirstCallGrants | BotEngine/Services/ExternalTicketService.cs:18-19 | a fresh client's first request is a grant request |
| TicketClient.UsableTokenReused | BotEngine/Services/ExternalTicketService.cs:111-116 | a non-empty token before its expiry is put in the header and nothing is sent |
| TicketClient.StaleTokenGrants | BotEngine/Services/ExternalTicketService.cs:136-155 | without a usable token exactly one grant request goes out; the refresh fails iff no 2xx answer with a non-empty token came back, and a failure leaves the cache as it was |
| TicketClient.GrantStoresToken | BotEngine/Services/ExternalTicketService.cs:157-162 | a granted token is stored with expiry `now + expiresIn - 300`, and is usable at once iff `expiresIn > 300` |
| TicketClient.FailedGrantSkipsCall | BotEngine/Services/ExternalTicketService.cs:94 | when no token can be had the business call is never sent |
| TicketClient.BusinessCallsAppend | BotEngine/Services/ExternalTicketService.cs:92-106 | business requests of two sequences add up |
| TicketClient.RefreshSendsNoCall | BotEngine/Services/ExternalTicketService.cs:108-170 | a refresh sends no business request |
| TicketClient.AtMostTwoRuns | BotEngine/Services/ExternalTicketService.cs:92-106 | the business call goes out at most twice, and twice only after a 401 |
| TicketClient.SecondRejectionPropagates | BotEngine/Services/ExternalTicketService.cs:100-105 | a 401 on the retry too reaches the caller as Unauthorized |
| TicketClient.RetryReusesUnexpiredToken | BotEngine/Services/ExternalTicketService.cs:121-132 | the refresh after a 401 is not forced: while the cached token is unexpired the same header is sent again and no grant is asked for |
| TicketClient.NotFoundOnlyForLookup | BotEngine/Services/ExternalTicketService.cs:54-84 | 404 is "no ticket" for a lookup but an error for a create; 401 asks for the retry in both |
| MockOAuth.OAuthController.constructor | MockServices/Controllers/OAuthController.cs:15-16 | one token for the process, expiring 30 minutes after start |
| MockOAuth.OAuthController.GetToken | MockServices/Controllers/OAuthController.cs:19-42 | the answer is the grant decision; only a successful grant moves the expiry, to now + 1800 |
| MockOAuth.GrantChecksInOrder | MockServices/Controllers/OAuthController.cs:22-41 | wrong grant type is 400 whatever the credentials; with the right one wrong credentials are 401; otherwise the token is handed out for 1800 seconds |
| MockOAuth.GrantsShareOneToken | MockServices/Controllers/OAuthController.cs:15-41 | every successful grant hands out the same token |
| MockOAuth.BearerHeaderAccepted | MockServices/Controllers/OAuthController.cs:45-54 | `Bearer ` plus the current token is accepted iff now is before the expiry |
| MockOAuth.OtherHeadersRefused | MockServices/Controllers/OAuthController.cs:47-53 | a missing header or any other text is refused at any time |
| MockOAuth.LowerCaseSchemeRefused | MockServices/Controllers/OAuthController.cs:47 | the scheme is case-sensitive: `bearer ` is refused |
| MockTickets.Decimal | MockServices/Controllers/TicketsController.cs:40 | the decimal form of a counter is a non-empty string of digits |
| MockTickets.PadDigits3 | MockServices/Controllers/TicketsController.cs:40 | `D3` gives at least three digits |
| MockTickets.TicketId | MockServices/Controllers/TicketsController.cs:40 | an id is `TCK-` followed by at least three digits |
| MockTickets.DecimalRoundTrip | MockServices/Controllers/TicketsController.cs:40 | reading the digits back gives the counter |
| MockTickets.LeadingZero | MockServices/Controllers/TicketsController.cs:40 | a leading zero does not change the value |
| MockTickets.LeadingZeros | MockServices/Controllers/TicketsController.cs:40 | any number of leading zeros do not change the value |
| MockTickets.TicketIdRoundTrip | MockServices/Controllers/TicketsController.cs:40 | the digits of an id give back its counter |
| MockTickets.TicketIdInjective | MockServices/Controllers/TicketsController.cs:40 | different counters give different ids |
| MockTickets.IdNumberOfTicketId | MockServices/Controllers/TicketsController.cs:40 | the number carried by an id is its counter |
| MockTickets.NextIdIsFree | MockServices/Controllers/TicketsController.cs:40-51 | in a valid table the next id is not taken, and storing under it keeps the table valid with the counter advanced |
| MockTickets.TicketsController.constructor | MockServices/Controllers/TicketsController.cs:11-12 | empty table, counter 0 |
| MockTickets.TicketsController.CreateTicket | MockServices/Controllers/TicketsController.cs:15-58 | the table, counter and answer are those of the create decision, and the table stays valid |
| MockTickets.TicketsController.GetTicket | MockServices/Controllers/TicketsController.cs:61-84 | the answer is the lookup decision and nothing changes |
| MockTickets.RefusedCreateChangesNothing | MockServices/Controllers/TicketsController.cs:18-37 | a bad token is 401 before any field check; a blank field is 400 naming the first blank; neither changes the table or the counter |
| MockTickets.CreateStoresNewTicket | MockServices/Controllers/TicketsController.cs:40-57 | a complete request takes the next number exactly once, stores an open ticket with the submitted fields under a new id, keeps the other tickets and answers with that id |
| MockTickets.LookupIgnoresCase | MockServices/Controllers/TicketsController.cs:70 | a lower-case id finds the stored ticket |
| MockTickets.UpperOfLowerTicketId | MockServices/Controllers/TicketsController.cs:40-70 | an id survives lower-casing and upper-casing again |
| Integration.AsCreateOutcome | BotEngine/Services/ConversationFlowService.cs:298-346 | an exception is a failed create, a null result is the "returned null" branch, and a response gives its id |
| Integration.AsStatusOutcome | BotEngine/Services/ConversationFlowService.cs:357-391 | an exception is a failed lookup, null is "not found", and a response is shown |
| Integration.DefaultClientTokenAccepted | BotEngine/Services/ExternalTicketService.cs:136-162 | the client's default credentials are granted; the client keeps the token 300 s less than the server, so every header it sends from that cache is accepted |
| Integration.WrongSecretRefused | BotEngine/Services/ExternalTicketService.cs:137-147 | a configured secret the server does not know gets a 401 and no business request goes out |
| Integration.ConfirmedDraftAccepted | MockServices/Controllers/TicketsController.cs:24-37 | a draft the flow asks to confirm passes every field check of the ticket API |
| Integration.ConfirmedDraftBecomesTicket | BotEngine/Services/ConversationFlowService.cs:294-318 | a yes with an accepted token stores the draft as a new open ticket under the next id, and the user is told that id |
| Integration.NotFoundReadsDifferently | BotEngine/Services/ExternalTicketService.cs:54-84 | a 404 is a failed create but a "not found" lookup for the flow |
| Integration.QuotedIdExtracted | BotEngine/Services/ConversationFlowService.cs:418-422 | an id the API issued is extracted from a message quoting it, in either case |
| Integration.ExtractWholeId | BotEngine/Services/ConversationFlowService.cs:418-422 | a message that is `TCK-` (either case) and digits yields itself upper-cased |
| Integration.UpperOfTicketId | MockServices/Controllers/TicketsController.cs:40 | issued ids are already upper case |
| Integration.NewTicketShowsOpen | BotEngine/Services/ConversationFlowService.cs:365-372 | a new ticket's status "Abierto" shows the green badge |
| Integration.QuotedTicketShown | BotEngine/Services/ConversationFlowService.cs:94-99 | asking for a stored ticket by a message that quotes its id, with an accepted token, shows that ticket |

## Left out

- Unicode and the regex engine are modelled only in part:
  - Case mapping (`ToLowerInvariant`, `ToUpper`) covers ASCII and Latin-1 only, plus `ÿ`/`Ÿ` and `µ`. Letters of Latin Extended-A/B and of other scripts keep their case, so the model reads `Lower("Ā")` as `"Ā"`, while .NET gives `"ā"`.
  - The `IgnoreCase` equivalences of the regexes beyond ASCII are not modelled: neither `ſ`/`s` nor `K` (Kelvin sign)/`k`. So `<ſcript>` is harmless in the model but dangerous in .NET, and `ſam@example.com` is a bad format in the model but passes in .NET.
  - `\d` in `TCK-\d+` is ASCII digits only. A message quoting `TCK-١٢٣` asks for an id in the model, while the source looks it up.
  - `\w` is the model's letters, ASCII digits and `_`. Combining marks, other connector punctuation and non-ASCII digits are not word characters, so `onc\u0301lick=` is not dangerous in the model.
  - `\p{L}` / `char.IsLetter` is modelled over Basic Latin, Latin-1 and Latin Extended-A/B only.
  - `\s`, `char.IsWhiteSpace` and `char.IsControl` are modelled in full.
  - There is no culture-specific behaviour and no surrogate pairs.
- Concurrency: `SemaphoreSlim`, `ConcurrentDictionary` atomicity and `async`/`await` are not modelled. Everything runs sequentially, so the double check inside `InvalidateAndRefreshTokenAsync` only matters for the retry after a 401.
- HTTP, JSON and logging are not modelled.
  - Requests and answers are datatypes.
  - A JSON `null` access token is the empty string.
  - A body the ASP.NET binder cannot read, and malformed JSON, are not modelled.
- Reply text: replies are a datatype carrying only the data the text shows (ids, error kind, remaining attempts, badge). Emojis, layout and the date format are left out.
- Time: time is whole seconds as a parameter.
  - Each call reads the clock once, so the `UtcNow` reads inside one handler are taken as equal.
  - The range limits of `DateTime.AddSeconds` are not modelled.
  - `FlowProperties.Run` feeds a whole run of messages at one instant. The single-message lemmas (`Process`, `RejectedName`) hold at any instant, so a run with a moving clock is their composition.
- The OAuth token `Guid` is a constructor parameter.
- TicketClient.ExternalTicketService.constructor: the credentials are read once when the client is built. The source reads the settings at each grant, which is the same while the configuration does not change.
- MockTickets.TicketsController.CreateTicket: the counter is an unbounded `nat`; the 32-bit wrap-around of `++_ticketCounter` after 2^31 - 1 tickets is not modelled.
- `GetHelpMessage` and `GetTicketSummary` are modelled as the replies `Help` and `Summary(draft)`.
- `ShowingSummary` is never assigned by the source; the model shows that no reachable context is at that step.
- Entering the status flow (`ConversationFlow.CheckTicketStatus`) never happens in the source. It is excluded from reachable states, and the step function keeps the source's fallback for it.
- Service lifetimes: the token cache is modelled for the lifetime of one `ExternalTicketService` object. BotEngine/Program.cs:26 registers the class through `AddHttpClient`, which makes it a transient typed client, so in the running bot each new instance starts with an empty cache. `UsableTokenReused` and `RetryReusesUnexpiredToken` hold within one instance.
- The `MessagesController` endpoint, `Program.cs` and dependency injection are not part of this model.

## Findings

| source | as written | input that shows it | evidently intended | confidence | as-written member | corrected member |
|---|---|---|---|---|---|---|
| BotEngine/Services/InputValidationService.cs:69-75 | the dangerous-pattern test runs on the trimmed message before control characters are removed, and the sanitized text is returned without a second check | `<scr\x01ipt>` (a U+0001 inside the tag): it passes the test and is returned as `<script>` | the text that is returned matches no dangerous pattern | not executed | ValidationExamples.SanitizedMessageCanBeDangerous | Validation.ValidateMessageSanitizedFirst |
