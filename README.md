# SafeHaven decision logic in Dafny

SafeHaven is a safety and wellbeing application. It has a React client and a set of Supabase edge functions. This project models the parts of it that make decisions, and proves what those decisions guarantee:

- the content-moderation function and its client hook: the verdict, the fail-safe fallbacks, and the `safety_alerts` row;
- the safety-alert store and the alert list: fetch, live insert, acknowledge, resolve, the status filter and action gating;
- notification routing: the type table, the priority rule, and the approved-guardian selection;
- the counselling chat function: prompt choice and crisis keywords;
- the client's server-sent-event line parser and its final flush;
- the coping-strategy function with its fallbacks;
- the counselling session page: time display, transcript upsert, send guard, strategy cards;
- translation: the edge function, the client fallback, the language table and the language selector;
- the zod validation schemas;
- the protected-route guard, the emergency-contact and profile hooks, the feedback dialog, the testing dashboard;
- the quiz, the interactive story, the tracking page's contact visibility and the emergency-service search.

Remote calls appear as datatypes of their possible outcomes: `Gateway.Reply`, `Gateway.Invoke` and the per-hook `DbReply`. `JSON.parse` appears as a function parameter returning `Option`. Time appears as `Instant` values passed in. The hooks and pages whose state changes are classes: fields for the React state, and methods with `modifies` and `ensures` tied to pure specification functions. The pure parts are functions and lemmas.

Modules: `Wrappers` (Option), `Text` (the JavaScript string methods on ASCII), `Seqs` (filter, count, sum), `Gateway`, `SafetyTypes` (the database enums), and one module per source file.

Two behaviours worth knowing:

- The moderation and coping-strategy handlers decode the greedy span from the first `{` (or `[`) to the last `}` (or `]`); brackets are not balanced.
- Acknowledge and resolve do not check the current status.

## Model

| member | source | states |
|---|---|---|
| ContentModeration.PromptContext | supabase/functions/content-moderation/index.ts:38 | the given context, or "general" when it is missing or empty; no contract of its own, stated by PromptEmbedsTextAndContext |
| ContentModeration.ContextLine | supabase/functions/content-moderation/index.ts:38 | "Context: " and the prompt context; no contract of its own, stated by PromptEmbedsTextAndContext |
| ContentModeration.AnalysisPrompt | supabase/functions/content-moderation/index.ts:28-46 | the analysis prompt around the submitted text and the context line; no contract of its own, stated by PromptEmbedsTextAndContext |
| ContentModeration.PromptEmbedsTextAndContext | supabase/functions/content-moderation/index.ts:36-38 | the prompt contains the submitted text verbatim and the context line, which reads "general" when no context is given |
| ContentModeration.ReplyText | supabase/functions/content-moderation/index.ts:83 | the reply text is the model content when present and non-empty, never empty otherwise ("{}") |
| Text.GreedyMatch | supabase/functions/content-moderation/index.ts:88 | a match starts with the opening and ends with the closing character, and there is none exactly when no greedy span exists (the first opening character does not come before the last closing one) |
| ContentModeration.ParseVerdict | supabase/functions/content-moderation/index.ts:84-106 | the verdict of a reply: the decoded greedy `{...}` span, the safe default without a span, the parse-error verdict for an undecodable span; no contract of its own, stated by NoSpanIsSafeDefault, SpanIsGreedy and UndecodableSpanIsFlagged |
| ContentModeration.NeedsAlert | supabase/functions/content-moderation/index.ts:109 | an alert is needed iff the verdict is not safe and its action is not "none"; a predicate, used by AlertGating and NoSpanIsSafeDefault |
| ContentModeration.Moderate | supabase/functions/content-moderation/index.ts:13-147 | the whole handler from key, gateway reply and decoder to response and optional row; no contract of its own, stated by GatewayErrorIsFailSafe, NoSpanReplyIsSafe, UndecodableSpanIsFlagged, AlertGating, InsertedRowContents, FailuresAre500 and NonSuccessIsNeverSafe, and served by AlertsTable.Serve |
| ContentModeration.NoSpanIsSafeDefault | supabase/functions/content-moderation/index.ts:89-96 | a reply with no `{` before a `}` gives the safe default verdict, which raises no alert |
| ContentModeration.SpanIsGreedy | supabase/functions/content-moderation/index.ts:89-96 | the candidate is the text from the first `{` to the last `}`, not a balanced object, and its decoding (or the parse-error verdict) is the verdict |
| ContentModeration.AlertRowFor | supabase/functions/content-moderation/index.ts:109-126 | a row exists exactly when the verdict has categories and severity; it is "active" and carries the submitted text |
| ContentModeration.GatewayErrorIsFailSafe | supabase/functions/content-moderation/index.ts:67-80 | a non-2xx gateway reply gives exactly the "analysis_unavailable" alert verdict with status 200 and no row |
| ContentModeration.NoSpanReplyIsSafe | supabase/functions/content-moderation/index.ts:89-96 | a reply without a `{...}` span gives the safe default with status 200 and no row |
| ContentModeration.UndecodableSpanIsFlagged | supabase/functions/content-moderation/index.ts:97-106 | an undecodable span gives the "parse_error" verdict and inserts a "MEDIUM Safety Alert" row of type "parse_error" |
| ContentModeration.ParseErrorRow | supabase/functions/content-moderation/index.ts:97-106 | the row built from the parse-error verdict exists, has type "parse_error" and the title "MEDIUM Safety Alert" |
| ContentModeration.AlertGating | supabase/functions/content-moderation/index.ts:109-126 | a row is inserted iff the verdict needs an alert and has categories and severity; a verdict needing an alert without them ends in a 500; otherwise the verdict is returned with 200 |
| ContentModeration.InsertedRowContents | supabase/functions/content-moderation/index.ts:110-126 | the row's user, type (categories joined by ", "), upper-cased title, severity, status "active", description, content and metadata |
| ContentModeration.FailuresAre500 | supabase/functions/content-moderation/index.ts:136-146 | a missing key or a thrown call gives status 500 with isSafe false, severity medium, action alert, and no row |
| ContentModeration.EmptyReplyFailsInAlertBranch | supabase/functions/content-moderation/index.ts:109-115 | an empty reply decodes to `{}`, which needs an alert but has no categories, so the call ends in a 500 with no row |
| ContentModeration.NonSuccessIsNeverSafe | supabase/functions/content-moderation/index.ts:136-146 | every reply other than 200 says isSafe false and action "alert" |
| ContentModeration.AlertsTable.Serve | supabase/functions/content-moderation/index.ts:109-135 | the response is the handler's; the table gains exactly the handler's row when one is built and the insert succeeds, and an insert error does not change the response |
| ModerationClient.ClientVerdict | src/hooks/useContentModeration.tsx:32-44 | an invoke error gives the fixed "unavailable" verdict; success returns the body unchanged |
| ModerationClient.ClientIsFailSafe | src/hooks/useContentModeration.tsx:32-44 | end to end, the client sees a safe verdict only after a 200 safe verdict, and every 500 reaches it as the "unavailable" verdict |
| ModerationClient.ModerationHook.constructor | src/hooks/useContentModeration.tsx:14 | the hook starts idle, for the signed-in user |
| ModerationClient.ModerationHook.Begin | src/hooks/useContentModeration.tsx:21-30 | the busy flag is raised and the request carries the text, the signed-in user and the context unchanged |
| ModerationClient.ModerationHook.Finish | src/hooks/useContentModeration.tsx:32-47 | the busy flag is lowered on every path and the result is the client verdict |
| SafetyTypes.ParseSeverity | src/integrations/supabase/types.ts:546 | a parsed severity is spelled by the name it was read from |
| SafetyTypes.SeverityNameRoundTrip | src/integrations/supabase/types.ts:546 | reading back the name of every severity gives that severity |
| SafetyAlerts.QueryFor | src/hooks/useSafetyAlerts.tsx:26-31 | the fetch asks for one user's rows, newest first, at most 50 |
| SafetyAlerts.SubscriptionFilter | src/hooks/useSafetyAlerts.tsx:43-53 | there is a subscription exactly when there is a user, filtered on that user's id |
| SafetyAlerts.AlertToast | src/hooks/useSafetyAlerts.tsx:60-65 | a toast of 10 seconds with the alert's title and description is raised iff the severity is critical or high |
| SafetyAlerts.AcknowledgeById | src/hooks/useSafetyAlerts.tsx:88-91 | the list keeps its length; what changes is stated by AcknowledgeTouchesOnlyId |
| SafetyAlerts.ResolveById | src/hooks/useSafetyAlerts.tsx:111-114 | the list keeps its length; what changes is stated by ResolveTouchesOnlyId |
| SafetyAlerts.AcknowledgeTouchesOnlyId | src/hooks/useSafetyAlerts.tsx:88-91 | acknowledging sets status and time on exactly the alerts with that id; every other field and alert is unchanged |
| SafetyAlerts.ResolveTouchesOnlyId | src/hooks/useSafetyAlerts.tsx:111-114 | resolving sets status and time on exactly the alerts with that id; every other field and alert is unchanged |
| SafetyAlerts.UnknownIdChangesNothing | src/hooks/useSafetyAlerts.tsx:88-91 | an id not in the list leaves it unchanged under both updates |
| SafetyAlerts.AcknowledgeReopensResolved | src/hooks/useSafetyAlerts.tsx:78-91 | acknowledging a resolved alert makes it "acknowledged" again and keeps its resolution time |
| SafetyAlerts.UpdatesAreIdempotent | src/hooks/useSafetyAlerts.tsx:75-115 | applying the same acknowledge or resolve twice equals applying it once |
| SafetyAlerts.AlertStore.constructor | src/hooks/useSafetyAlerts.tsx:15-20 | the store starts empty and loading, and its invariant holds |
| SafetyAlerts.AlertStore.Fetch | src/hooks/useSafetyAlerts.tsx:22-40 | with no user nothing is issued or changed; otherwise the query is issued, rows (or [] for null) replace the list, an error keeps it, loading ends, and a conforming answer keeps the list newest-first, within 50 and owned by the user |
| SafetyAlerts.AlertStore.OnInsert | src/hooks/useSafetyAlerts.tsx:56-65 | the new alert is prepended, the rest keep their order, the toast rule applies, and ownership is kept |
| SafetyAlerts.AlertStore.AcknowledgeAlert | src/hooks/useSafetyAlerts.tsx:75-96 | a successful update acknowledges by id; a failure keeps the list and gives the error notice |
| SafetyAlerts.AlertStore.ResolveAlert | src/hooks/useSafetyAlerts.tsx:98-119 | a successful update resolves by id; a failure keeps the list and gives the error notice |
| SafetyAlertsList.Shown | src/components/SafetyAlertsList.tsx:15-20 | "all" shows every alert, "active" the active and acknowledged ones, "resolved" the resolved ones; a predicate, used by FilterAlerts and FilterMembership |
| SafetyAlertsList.FilterAlerts | src/components/SafetyAlertsList.tsx:15-20 | only alerts shown under the filter are kept |
| SafetyAlertsList.FilterMembership | src/components/SafetyAlertsList.tsx:15-20 | an alert is listed iff it is in the list and its status fits the filter; an escalated alert appears only under "all" |
| SafetyAlertsList.AllShowsEverything | src/components/SafetyAlertsList.tsx:15-16 | "all" lists the whole list in order |
| SafetyAlertsList.FilterKeepsOrder | src/components/SafetyAlertsList.tsx:15 | filtering distributes over concatenation, so the order of the list is kept |
| SafetyAlertsList.PrependedAlertListedFirst | src/components/SafetyAlertsList.tsx:15 | a live alert that fits the filter is listed first, ahead of the earlier ones |
| SafetyAlertsList.OffersAcknowledge | src/components/SafetyAlertsList.tsx:116-129 | acknowledge is offered for active alerts only; a predicate, stated by ActionGating |
| SafetyAlertsList.OffersResolve | src/components/SafetyAlertsList.tsx:116-129 | resolve is offered for active and acknowledged alerts; a predicate, stated by ActionGating |
| SafetyAlertsList.ActionGating | src/components/SafetyAlertsList.tsx:116-129 | resolved and escalated alerts offer no action; "Mark Resolved" is offered exactly for alerts under "active"; "Acknowledge" implies "Mark Resolved" |
| SafetyAlertsList.ActionsMoveBetweenFilters | src/components/SafetyAlertsList.tsx:116-129 | acknowledging keeps an alert under "active"; resolving moves it to "resolved" |
| SafetyAlertsList.SeverityStyle | src/components/SafetyAlertsList.tsx:22-33 | low (the default branch) gets the primary style |
| SafetyAlertsList.SeverityStylesDistinct | src/components/SafetyAlertsList.tsx:22-33 | the four severities get four different styles |
| SafetyAlertsList.Preview | src/components/SafetyAlertsList.tsx:95-101 | non-empty content is shown as a prefix of at most 100 characters followed by "..." |
| SendNotification.ConfigFor | supabase/functions/send-notification/index.ts:34-43 | a type is urgent (and always sent) iff it is emergency, safety_alert or guardian_alert; an unknown type gets the all-false default |
| SendNotification.PriorityFor | supabase/functions/send-notification/index.ts:72 | a given priority wins; otherwise "high" iff the type is urgent and "normal" iff it is not |
| SendNotification.GuardianTypesAreUrgent | supabase/functions/send-notification/index.ts:46 | the types that reach guardians are urgent and default to "high" |
| SendNotification.ApprovedLinks | supabase/functions/send-notification/index.ts:47-51 | every selected link is the child's and approved |
| SendNotification.ApprovedLinksExact | supabase/functions/send-notification/index.ts:47-51 | a link is selected iff it is in the table, is the child's and is approved |
| SendNotification.GuardianIds | supabase/functions/send-notification/index.ts:53-62 | one id per link; the ids in order are stated by DispatchToGuardians |
| SendNotification.DispatchToGuardians | supabase/functions/send-notification/index.ts:55-61 | one dispatch per link, in order, to that link's guardian |
| SendNotification.NotificationRecord | supabase/functions/send-notification/index.ts:66-75 | the record copies user, type, title and body, uses {} for missing data, applies the priority rule and has status "sent" |
| SendNotification.Handle | supabase/functions/send-notification/index.ts:23-105 | a missing profile gives 500 and nothing else; otherwise 200 with the record, and guardians are dispatched only for the two guardian types when the lookup succeeds |
| SendNotification.DispatchesAreApprovedGuardians | supabase/functions/send-notification/index.ts:46-61 | a guardian is dispatched iff an approved link joins them to the user, and there are as many dispatches as approved links |
| CounselingChat.SystemPrompt | supabase/functions/ai-counseling-chat/index.ts:22-37 | the child, woman and guardian prompts; a table without a contract, selected through AudienceFor |
| CounselingChat.AudienceFor | supabase/functions/ai-counseling-chat/index.ts:22-39 | child and guardian select their own prompt; any other value, or none, selects the woman prompt |
| CounselingChat.EmotionalState | supabase/functions/ai-counseling-chat/index.ts:58 | the emotional state defaults to "neutral" |
| CounselingChat.StateLine | supabase/functions/ai-counseling-chat/index.ts:58 | "Current emotional state: " and the emotional state; no contract of its own, stated by SystemMessageParts |
| CounselingChat.SystemMessage | supabase/functions/ai-counseling-chat/index.ts:55-59 | the system message sent before the conversation; no contract of its own, stated by SystemMessageParts |
| CounselingChat.SystemMessageParts | supabase/functions/ai-counseling-chat/index.ts:39-58 | the system message opens with the prompt of the user's audience and contains the emotional-state line |
| CounselingChat.PromptThenLine | supabase/functions/ai-counseling-chat/index.ts:58 | in a prompt followed by a separator, a line and a tail, the prompt is a prefix and the line is found |
| CounselingChat.LastMessageText | supabase/functions/ai-counseling-chat/index.ts:86 | the lower-cased content of the last message, whatever its role, and "" when there is none |
| CounselingChat.AnyKeyword | supabase/functions/ai-counseling-chat/index.ts:87 | true iff some keyword is a substring of the text |
| CounselingChat.CrisisDetected | supabase/functions/ai-counseling-chat/index.ts:41-45 | some crisis keyword occurs in the lower-cased last message; a predicate, stated by CrisisIffKeyword |
| CounselingChat.CrisisIffKeyword | supabase/functions/ai-counseling-chat/index.ts:41-45 | a crisis holds iff one of the 13 keywords occurs in the last message's lower-cased content; no messages or no content is never a crisis |
| CounselingChat.Handle | supabase/functions/ai-counseling-chat/index.ts:17-110 | 500 without a key or on a thrown call, 429 and 402 passed through, other gateway errors 500, otherwise the stream with the crisis flag; no contract of its own, stated by HandleOutcomes |
| CounselingChat.HandleOutcomes | supabase/functions/ai-counseling-chat/index.ts:67-110 | the stream is passed on iff the key exists and the gateway succeeded, with the crisis header iff a crisis is detected; 429 and 402 pass through; every other failure is 500 |
| CounselingStream.StripCR | src/hooks/useAICounseling.tsx:89 | one trailing carriage return is removed and nothing else |
| CounselingStream.Classify | src/hooks/useAICounseling.tsx:90-97 | a line is ignored, the done marker or a JSON payload; no contract of its own, stated by ClassifyMeaning |
| CounselingStream.ClassifyMeaning | src/hooks/useAICounseling.tsx:90-97 | comments, blank lines and non-"data: " lines are ignored, and any other line is not; the payload is the trimmed text after "data: "; "[DONE]" is the end marker |
| CounselingStream.Delta | src/hooks/useAICounseling.tsx:101-102 | a delta exactly for present, non-empty content |
| CounselingStream.LineStep | src/hooks/useAICounseling.tsx:90-106 | skipped, stopping and emitting lines keep the rest of the buffer; an undecodable line is put back in front of it with its newline |
| CounselingStream.NextLineAtNewline | src/hooks/useAICounseling.tsx:85-89 | the line read is the text before the first newline, without a trailing carriage return |
| CounselingStream.Drain | src/hooks/useAICounseling.tsx:84-107 | the inner loop never grows the buffer |
| CounselingStream.ReadAll | src/hooks/useAICounseling.tsx:76-108 | the deltas and buffer left after reading the chunks in order, stopping at "[DONE]"; no contract of its own, stated by DoneStopsReading and UndecodableLineBlocksReading and computed by ReadStream |
| CounselingStream.FlushLine | src/hooks/useAICounseling.tsx:113-125 | the deltas of one piece of the final flush; no contract of its own, stated by FlushLineOutcomes and computed by FlushPiece |
| CounselingStream.FlushLines | src/hooks/useAICounseling.tsx:112-126 | the deltas of every piece, in order; no contract of its own, computed by FlushPieces |
| CounselingStream.Flush | src/hooks/useAICounseling.tsx:111-127 | the deltas of the final flush; no contract of its own, stated by FlushLineOutcomes and computed by FlushBuffer |
| CounselingStream.StreamDeltas | src/hooks/useAICounseling.tsx:76-127 | every delta a successful stream hands on: the read deltas, then the flushed ones; no contract of its own, used by CounselingHook.StreamChat |
| CounselingStream.NextLine | src/hooks/useAICounseling.tsx:85-87 | there is no line iff the buffer holds no newline; consuming a line shortens the buffer |
| CounselingStream.IgnoredLineEmitsNothing | src/hooks/useAICounseling.tsx:90-91 | an ignored line is dropped without output |
| CounselingStream.PayloadLineEmitsOnce | src/hooks/useAICounseling.tsx:99-102 | a decoded line with content emits exactly that delta before the rest |
| CounselingStream.DoneLineStops | src/hooks/useAICounseling.tsx:94-97 | "[DONE]" stops the inner loop with nothing emitted and the rest kept |
| CounselingStream.UndecodableLineGoesBack | src/hooks/useAICounseling.tsx:103-106 | an undecodable line goes back to the front of the buffer and the inner loop stops |
| CounselingStream.UndecodableLineBlocksReading | src/hooks/useAICounseling.tsx:103-106 | once an undecodable line is at the front, no later line is emitted before it |
| CounselingStream.DoneStopsReading | src/hooks/useAICounseling.tsx:79-97 | after "[DONE]", later chunks are never read |
| CounselingStream.FlushLineOutcomes | src/hooks/useAICounseling.tsx:113-125 | in the flush a piece gives at most one delta, exactly for a decodable payload with content; "[DONE]" gives none |
| CounselingStream.DrainBuffer | src/hooks/useAICounseling.tsx:84-107 | the inner loop emits, leaves and stops exactly as the specification `Drain` says |
| CounselingStream.ReadStream | src/hooks/useAICounseling.tsx:76-108 | the outer loop emits the deltas of `ReadAll` in order and leaves its buffer |
| CounselingStream.FlushPiece | src/hooks/useAICounseling.tsx:113-125 | one piece of the flush gives the deltas of `FlushLine` |
| CounselingStream.FlushPieces | src/hooks/useAICounseling.tsx:112-126 | the flush loop gives every piece's deltas in order |
| CounselingStream.FlushBuffer | src/hooks/useAICounseling.tsx:111-127 | nothing for a blank buffer; otherwise each newline-separated piece once |
| CounselingStream.FailureToast | src/hooks/useAICounseling.tsx:46-64 | 429 is "Please slow down", 402 is "Service unavailable", anything else "Connection error" |
| CounselingStream.CounselingHook.constructor | src/hooks/useAICounseling.tsx:11-12 | the hook starts not loading and with no crisis flag |
| CounselingStream.CounselingHook.StreamChat | src/hooks/useAICounseling.tsx:26-139 | loading ends on every path; the crisis flag is set iff the header is "true"; onDone is called iff the stream is readable, then with all deltas in order; otherwise a toast and no deltas |
| CopingStrategies.AgeAppropriate | supabase/functions/generate-coping-strategies/index.ts:21-23 | "child" selects the children's wording; anything else the adults' wording |
| CopingStrategies.TopicsText | supabase/functions/generate-coping-strategies/index.ts:28 | the topics joined by ", ", or "general stress" when missing or empty |
| CopingStrategies.ReplyText | supabase/functions/generate-coping-strategies/index.ts:96 | the model content, or "[]" when missing or empty |
| CopingStrategies.ParseStrategies | supabase/functions/generate-coping-strategies/index.ts:98-114 | the decoded greedy `[...]` span, [] without a span, the single "Mindful Breathing" strategy for an undecodable span; no contract of its own, stated by NoSpanGivesEmptyList and UndecodableSpanGivesMindfulBreathing |
| CopingStrategies.Handle | supabase/functions/generate-coping-strategies/index.ts:17-125 | 500 without a key or on a thrown call, the three fixed strategies on 429 or 402, 500 on other gateway errors, the parsed list otherwise; no contract of its own, stated by RateLimitGivesThreeStrategies, OtherFailuresAre500 and MissingContentGivesEmptyList |
| CopingStrategies.RateLimitGivesThreeStrategies | supabase/functions/generate-coping-strategies/index.ts:65-91 | 429 or 402 gives exactly the three fixed strategies with their icons, status 200 |
| CopingStrategies.OtherFailuresAre500 | supabase/functions/generate-coping-strategies/index.ts:119-125 | the reply is a 500 iff the key is missing, the call threw, or another status came back |
| CopingStrategies.NoSpanGivesEmptyList | supabase/functions/generate-coping-strategies/index.ts:101-102 | without a `[...]` span the list is empty |
| CopingStrategies.UndecodableSpanGivesMindfulBreathing | supabase/functions/generate-coping-strategies/index.ts:103-114 | an undecodable span gives the single "Mindful Breathing" strategy |
| CopingStrategies.MissingContentGivesEmptyList | supabase/functions/generate-coping-strategies/index.ts:96 | missing content is read as "[]" and gives an empty list |
| CounselingSession.FormatTime | src/pages/CounselingSession.tsx:72-76 | whole minutes, a colon, then the seconds as two digits |
| CounselingSession.TwoDigits | src/pages/CounselingSession.tsx:75 | the seconds are two decimal digits |
| CounselingSession.TwoDigitsValue | src/pages/CounselingSession.tsx:75 | the two digits read back as the seconds |
| CounselingSession.FormatTimeRoundTrip | src/pages/CounselingSession.tsx:72-76 | reading the display back gives the session time |
| CounselingSession.DurationMinutes | src/pages/CounselingSession.tsx:111 | the whole minutes: m*60 <= time < m*60 + 60 |
| CounselingSession.UserContents | src/pages/CounselingSession.tsx:133-136 | the contents of the user messages only |
| CounselingSession.RecentTopics | src/pages/CounselingSession.tsx:133-136 | the last three user contents, in order |
| CounselingSession.RecentTopicsAfterSend | src/pages/CounselingSession.tsx:133-136 | once a user message is appended to the transcript, it is the last recent topic of that transcript; assistant messages never count |
| CounselingSession.UserContentsAppend | src/pages/CounselingSession.tsx:133-136 | appending a message adds its content to the user contents exactly when the user sent it |
| CounselingSession.IconFor | src/pages/CounselingSession.tsx:141-150 | heart, brain and lightbulb map to their icons; anything else to the lightbulb |
| CounselingSession.CardOf | src/pages/CounselingSession.tsx:145-151 | a strategy becomes a card with its title, description and mapped icon; no contract of its own, used by CardsAfterLoad |
| CounselingSession.CardsAfterLoad | src/pages/CounselingSession.tsx:140-153 | the cards are replaced only by a successful non-empty list |
| CounselingSession.Upserted | src/pages/CounselingSession.tsx:174-182 | a trailing assistant message gets the reply so far; otherwise exactly one assistant message is appended |
| CounselingSession.UpsertAll | src/pages/CounselingSession.tsx:171-183 | the transcript after each chunk is upserted in turn; no contract of its own, stated by StreamedReplyIsOneMessage and UpsertTail |
| CounselingSession.StreamedReplyIsOneMessage | src/pages/CounselingSession.tsx:171-183 | after a user message, the chunks become exactly one assistant message holding their concatenation |
| CounselingSession.UpsertTail | src/pages/CounselingSession.tsx:176-180 | while the last message is the reply so far, further chunks extend it in place |
| CounselingSession.ReplaceLastReply | src/pages/CounselingSession.tsx:176-180 | with the reply so far last, a chunk replaces that message and keeps everything before it |
| CounselingSession.Session.constructor | src/pages/CounselingSession.tsx:37-52 | the session starts with the greeting alone, an empty input, time 0, no dialog and the three initial cards |
| CounselingSession.Session.Tick | src/pages/CounselingSession.tsx:57-62 | each tick adds one second and changes nothing else |
| CounselingSession.Session.OnCrisisFlag | src/pages/CounselingSession.tsx:121-125 | a crisis flag opens the dialog |
| CounselingSession.Session.HandleSend | src/pages/CounselingSession.tsx:159-169 | a blank input or a loading reply does nothing; otherwise one user message is appended and the input cleared |
| CounselingSession.Session.UpsertAssistant | src/pages/CounselingSession.tsx:171-183 | the reply so far grows by the chunk and the transcript is upserted |
| CounselingSession.Session.LoadCopingStrategies | src/pages/CounselingSession.tsx:127-157 | the cards follow `CardsAfterLoad` and nothing else changes |
| TranslateContent.Instruction | supabase/functions/translate-content/index.ts:22-30 | each of four content types selects its instruction; anything else the general one |
| TranslateContent.TranslatedText | supabase/functions/translate-content/index.ts:77 | the trimmed output, or the original text when the output is missing or blank |
| TranslateContent.Handle | supabase/functions/translate-content/index.ts:17-94 | 500 without a key or on a thrown call, 429 and 402 passed through, other gateway errors 500, otherwise the translation answer; no contract of its own, stated by AnswerEchoesRequest and StatusMapping |
| TranslateContent.AnswerEchoesRequest | supabase/functions/translate-content/index.ts:79-87 | the answer echoes the text, target language and content type |
| TranslateContent.StatusMapping | supabase/functions/translate-content/index.ts:60-94 | an answer iff key and gateway succeed; 429 and 402 pass through; every other failure is 500 |
| Translation.FindLanguage | src/components/LanguageSelector.tsx:25 | the entry found has the code; none is found iff no entry has it |
| Translation.LanguageTableFacts | src/utils/translation.ts:26-39 | 12 entries, distinct codes, and only "ar" is right-to-left |
| Translation.TranslateBody | src/utils/translation.ts:6-14 | the request carries text and target language, with content type defaulting to "general" |
| Translation.TranslateText | src/utils/translation.ts:17-23 | an invoke error returns the original text; success returns the translated text |
| Translation.TranslateEndToEnd | src/utils/translation.ts:8-23 | every failure of the function returns the original text; success returns the function's translated text |
| LanguageSelector.ApplyTo | src/components/LanguageSelector.tsx:24-35 | an unknown code changes nothing; a known one sets the language, the direction (rtl iff the entry is) and the saved preference |
| LanguageSelector.OnlyArabicIsRightToLeft | src/components/LanguageSelector.tsx:28-32 | applying a known code gives "rtl" iff the code is "ar" |
| LanguageSelector.Selector.constructor | src/components/LanguageSelector.tsx:13 | the selection starts at "en" |
| LanguageSelector.Selector.ApplyLanguage | src/components/LanguageSelector.tsx:24-35 | the document and storage change as `ApplyTo` says; the selection does not |
| LanguageSelector.Selector.Restore | src/components/LanguageSelector.tsx:15-22 | a saved preference becomes the selection even if unknown, and is applied |
| LanguageSelector.Selector.ChangeLanguage | src/components/LanguageSelector.tsx:37-42 | the selection becomes the code, which is applied |
| Validation.Password | src/lib/validation.ts:4-9 | the password is kept and at most five messages are reported |
| Validation.PasswordAcceptedIff | src/lib/validation.ts:4-9 | accepted iff at least 8 characters with an upper-case letter, a lower-case letter, a digit and a character outside [A-Za-z0-9] |
| Validation.SpaceIsSpecial | src/lib/validation.ts:9 | a space counts as the special character |
| Validation.Email | src/lib/validation.ts:12-16 | accepted iff the trimmed text is an email of at most 255 characters; the value is trimmed and lower-cased |
| Validation.EmailIsNormalised | src/lib/validation.ts:12-16 | an accepted email is at most 255 characters, has no surrounding space and no upper-case letter |
| Validation.Name | src/lib/validation.ts:36-40 | the value is the trimmed name |
| Validation.NameAcceptedIff | src/lib/validation.ts:36-40 | accepted iff the trimmed name has 1 to 100 characters, all letters, spaces, apostrophes or hyphens |
| Validation.PhonePattern | src/lib/validation.ts:45 | the regular expression as a predicate; its meaning is stated by PhonePatternDigits |
| Validation.PhonePatternDigits | src/lib/validation.ts:45 | the pattern holds iff, after an optional "+", there are 2 to 15 digits not starting with 0 |
| Validation.Phone | src/lib/validation.ts:43-46 | a missing phone is accepted; a given one is trimmed and accepted iff it fits the pattern |
| Validation.EmptyPhoneRejected | src/lib/validation.ts:43-46 | a missing phone is accepted but an empty one is not |
| Validation.Bounded | src/lib/validation.ts:102-111 | the value is trimmed and accepted iff its length is within the bounds |
| Validation.OptionalBounded | src/lib/validation.ts:49-58 | a missing value is accepted; a given one is trimmed and accepted iff short enough |
| Validation.Bio | src/lib/validation.ts:49-52 | a missing bio is accepted; a given one is trimmed and accepted iff at most 500 characters, with "Bio must be less than 500 characters" otherwise |
| Validation.Location | src/lib/validation.ts:55-58 | a missing location is accepted; a given one is trimmed and accepted iff at most 200 characters, with its one message otherwise |
| Validation.Relationship | src/lib/validation.ts:67-70 | trimmed; accepted iff 1 to 50 characters; an empty one gets "Relationship is required", a long one the length message |
| Validation.Content | src/lib/validation.ts:102-105 | trimmed; accepted iff 1 to 5000 characters; an empty one gets "Content cannot be empty", a long one the length message |
| Validation.Title | src/lib/validation.ts:108-111 | trimmed; accepted iff 1 to 200 characters; an empty one gets "Title is required", a long one the length message |
| Validation.AcceptedContentIsNotBlank | src/lib/validation.ts:102-105 | accepted content is never blank |
| Validation.Age | src/lib/validation.ts:22-25 | the age is kept |
| Validation.AgeAcceptedIff | src/lib/validation.ts:22-25 | accepted iff the age is a whole number from 8 to 120 |
| Validation.At | src/lib/validation.ts:81-84 | each message becomes one issue at the given path |
| Validation.SignUp | src/lib/validation.ts:75-84 | valid iff every field is and the passwords match; a valid form carries the normalised email and the password |
| Validation.MismatchReportedAtConfirmPassword | src/lib/validation.ts:81-84 | with a valid user type, a mismatch is reported at confirmPassword |
| Validation.SignIn | src/lib/validation.ts:87-90 | valid iff the email is and the password is non-empty |
| Validation.EmergencyContact | src/lib/validation.ts:61-72 | valid iff name, phone, optional email and relationship are; the valid form carries the trimmed values |
| Validation.ProfileSetup | src/lib/validation.ts:93-99 | valid iff name, date of birth, phone, bio and location are; the valid form carries the trimmed name and phone |
| ProtectedRoute.Guard | src/components/ProtectedRoute.tsx:12-20 | sign-in without a user, the dashboard for a known type outside the allowed list, the page otherwise; no contract of its own, stated by GuardRules and RenderedOnlyForAllowed |
| ProtectedRoute.GuardRules | src/components/ProtectedRoute.tsx:12-20 | no user always goes to sign-in; redirect to the dashboard iff a known type is outside the given list; a null type or no list is admitted |
| ProtectedRoute.RenderedOnlyForAllowed | src/components/ProtectedRoute.tsx:12-20 | rendering implies a user, and a known type is in any given list |
| EmergencyContacts.ReplaceById | src/hooks/useEmergencyContacts.tsx:75 | exactly the contacts with the id are replaced; the others keep place and content |
| EmergencyContacts.RemoveById | src/hooks/useEmergencyContacts.tsx:93 | the contacts without that id; no contract of its own, stated by RemoveByIdExact |
| EmergencyContacts.RemoveByIdExact | src/hooks/useEmergencyContacts.tsx:93 | a contact remains iff it was there with another id; no remaining contact has the id |
| EmergencyContacts.RemoveAbsentId | src/hooks/useEmergencyContacts.tsx:93 | deleting an absent id changes nothing |
| EmergencyContacts.AddThenDelete | src/hooks/useEmergencyContacts.tsx:47-93 | adding a contact with a new id then deleting it gives back the list |
| EmergencyContacts.ReplaceAbsentId | src/hooks/useEmergencyContacts.tsx:75 | updating an absent id changes nothing |
| EmergencyContacts.ContactBook.constructor | src/hooks/useEmergencyContacts.tsx:17-21 | the book starts empty and loading, for the given user |
| EmergencyContacts.ContactBook.Fetch | src/hooks/useEmergencyContacts.tsx:23-41 | no user issues nothing; otherwise the query for the user's contacts, primary first; rows replace the list, an error keeps it and toasts |
| EmergencyContacts.ContactBook.AddContact | src/hooks/useEmergencyContacts.tsx:43-62 | no user sends nothing; otherwise the insert is stamped with the user; success appends the stored contact; an error keeps the list |
| EmergencyContacts.ContactBook.UpdateContact | src/hooks/useEmergencyContacts.tsx:64-82 | success replaces by id; an error keeps the list |
| EmergencyContacts.ContactBook.DeleteContact | src/hooks/useEmergencyContacts.tsx:84-100 | success removes by id; an error keeps the list |
| Profile.Extension | src/hooks/useProfile.tsx:70 | the extension holds no "." |
| Profile.LastPieceAfterLastSeparator | src/hooks/useProfile.tsx:70 | the last piece of a split is the text after the last separator |
| Profile.ExtensionAfterLastDot | src/hooks/useProfile.tsx:70 | the extension is the text after the last ".", or the whole name without one |
| Profile.AvatarPath | src/hooks/useProfile.tsx:71 | the path is the user id, "/avatar." and the extension |
| Profile.Upsert | src/hooks/useProfile.tsx:73-75 | the path holds the new file and every other file is kept |
| Profile.UploadOverwrites | src/hooks/useProfile.tsx:73-75 | a second upload to the same path replaces the first |
| Profile.AvatarPathsAreSeparate | src/hooks/useProfile.tsx:71 | users without "/" in their ids never share an avatar path |
| Profile.AvatarPathSlash | src/hooks/useProfile.tsx:71 | for an id without "/", the first "/" of the path comes right after the id |
| Profile.ProfileStore.constructor | src/hooks/useProfile.tsx:13-14 | the store starts with no profile and loading |
| Profile.ProfileStore.OnUser | src/hooks/useProfile.tsx:16-41 | no user clears the profile; a fetched profile replaces it; an error keeps it |
| Profile.ProfileStore.UpdateProfile | src/hooks/useProfile.tsx:44-64 | no user sends nothing and shows nothing; otherwise the given updates are sent for the user; a returned row, which carries the sent fields, becomes the profile with "Profile updated successfully"; an error keeps the profile with "Failed to update profile" |
| Profile.ProfileStore.UploadAvatar | src/hooks/useProfile.tsx:66-90 | no user changes nothing; a failed upload changes nothing and shows "Failed to upload avatar"; an upload stores the file at the avatar path, sends the update setting avatar_url to the public URL, and returns that URL; the profile then holds that URL, or on an update error is kept with "Failed to update profile" |
| FeedbackDialog.Refusal | src/components/feedback/FeedbackDialog.tsx:35-49 | the refusal toast, if any; no contract of its own, stated by RefusalMeaning |
| FeedbackDialog.RefusalMeaning | src/components/feedback/FeedbackDialog.tsx:35-49 | a blank message is refused for non-rating feedback, rating 0 for rating feedback, and nothing else is refused |
| FeedbackDialog.RowFor | src/components/feedback/FeedbackDialog.tsx:53-65 | the rating is stored only for rating feedback; the message is trimmed; type and user are copied |
| FeedbackDialog.StoredRowsAreMeaningful | src/components/feedback/FeedbackDialog.tsx:35-65 | an accepted row has a non-empty message and no rating, or a positive rating |
| FeedbackDialog.ResetForm | src/components/feedback/FeedbackDialog.tsx:90-95 | the reset form is valid and keeps the open state |
| FeedbackDialog.SubmitStep | src/components/feedback/FeedbackDialog.tsx:34-88 | the form, row and toast after a submit; no contract of its own, stated by SubmitOutcomes and carried out by Dialog.Submit |
| FeedbackDialog.SubmitOutcomes | src/components/feedback/FeedbackDialog.tsx:34-88 | a refusal sends nothing and keeps the form; success resets and closes with thanks; failure keeps the values |
| FeedbackDialog.Dialog.constructor | src/components/feedback/FeedbackDialog.tsx:21-25 | the form starts reset, not loading, with the given open state |
| FeedbackDialog.Dialog.PickKind | src/components/feedback/FeedbackDialog.tsx:117-120 | a type is picked and page 2 shown |
| FeedbackDialog.Dialog.Back | src/components/feedback/FeedbackDialog.tsx:183 | back to page 1 |
| FeedbackDialog.Dialog.Type | src/components/feedback/FeedbackDialog.tsx:177 | the message is replaced by the typed text |
| FeedbackDialog.Dialog.SelectStar | src/components/feedback/FeedbackDialog.tsx:140-143 | a star from 1 to 5 becomes the rating |
| FeedbackDialog.Dialog.Reset | src/components/feedback/FeedbackDialog.tsx:90-95 | the four fields are reset |
| FeedbackDialog.Dialog.Submit | src/components/feedback/FeedbackDialog.tsx:34-88 | the form, row and toast follow `SubmitStep`; loading ends after a send and is untouched by a refusal |
| FeedbackDialog.Dialog.SetOpen | src/components/feedback/FeedbackDialog.tsx:98-101 | closing resets the fields; opening keeps them |
| TestingDashboard.BugReports | src/pages/TestingDashboard.tsx:81 | the number of "bug" items, at most the number of items (Count's contract); bounded with FeatureRequests by BugsAndFeaturesWithinTotal |
| TestingDashboard.FeatureRequests | src/pages/TestingDashboard.tsx:82 | the number of "feature" items, at most the number of items (Count's contract); bounded with BugReports by BugsAndFeaturesWithinTotal |
| TestingDashboard.BugsAndFeaturesWithinTotal | src/pages/TestingDashboard.tsx:81-82 | bug reports and feature requests together are at most the number of items |
| TestingDashboard.Ratings | src/pages/TestingDashboard.tsx:83 | the non-null ratings, never more than the items |
| TestingDashboard.AverageRating | src/pages/TestingDashboard.tsx:84-86 | 0 without ratings; otherwise average times count equals the sum |
| TestingDashboard.AverageWithinStars | src/pages/TestingDashboard.tsx:83-86 | with ratings from 1 to 5, the average lies between 1 and 5 |
| TestingDashboard.VisitorKey | src/pages/TestingDashboard.tsx:89 | the user id when present, the session id otherwise |
| TestingDashboard.ActiveUsers | src/pages/TestingDashboard.tsx:89 | the number of distinct visitor keys; no contract of its own, bounded by ActiveUsersBounds |
| TestingDashboard.ActiveUsersBounds | src/pages/TestingDashboard.tsx:89 | at most one visitor per event, and at least one when there are events |
| TestingDashboard.PageCounts | src/pages/TestingDashboard.tsx:92-98 | the visits per page, event by event; no contract of its own, stated by PageCountsCountViews and computed by Dashboard.CountPageViews |
| TestingDashboard.FirstSeen | src/pages/TestingDashboard.tsx:99 | the pages in the order of their first view; no contract of its own, stated by FirstSeenListsCountedPages |
| TestingDashboard.PageCountsCountViews | src/pages/TestingDashboard.tsx:92-98 | a page is counted iff it has page views, and its count is their number (empty URL as "/") |
| TestingDashboard.FirstSeenListsCountedPages | src/pages/TestingDashboard.tsx:99 | the pages are listed once each, exactly the counted ones |
| TestingDashboard.InsertByVisits | src/pages/TestingDashboard.tsx:101 | one more entry, the same multiset plus the new one |
| TestingDashboard.InsertKeepsOrder | src/pages/TestingDashboard.tsx:101 | inserting into a list sorted by visits keeps it sorted |
| TestingDashboard.ConsKeepsOrder | src/pages/TestingDashboard.tsx:101 | an entry with at least the visits of a sorted list's head can go in front of it |
| TestingDashboard.SortByVisits | src/pages/TestingDashboard.tsx:101 | a permutation in non-increasing visits |
| TestingDashboard.Entries | src/pages/TestingDashboard.tsx:99-100 | one entry per page with its count |
| TestingDashboard.TopPages | src/pages/TestingDashboard.tsx:99-102 | at most 5 entries, non-increasing by visits; which pages are listed is stated by TopPagesAreTheMostVisited |
| TestingDashboard.TopPagesAreViewCounts | src/pages/TestingDashboard.tsx:92-102 | each top entry's visits are that page's view count, and positive |
| TestingDashboard.TopPagesAreTheMostVisited | src/pages/TestingDashboard.tsx:92-102 | the list has min(5, number of viewed pages) entries, distinct counted pages, and no unlisted page has more visits than a listed one |
| TestingDashboard.RankedPrefix | src/pages/TestingDashboard.tsx:101-102 | the first five of a ranking by visits are distinct counted pages, and no page outside them has more visits than one inside |
| TestingDashboard.PermutedEntries | src/pages/TestingDashboard.tsx:99-101 | a permutation of the entries has one entry per counted page, each with its count, no page twice |
| TestingDashboard.RecentErrors | src/pages/TestingDashboard.tsx:105-108 | the number of error events of the day before now; no contract of its own, stated by RecentErrorsStep |
| TestingDashboard.RecentErrorsStep | src/pages/TestingDashboard.tsx:105-108 | one more event adds one exactly when it is an "error_occurred" event newer than 24 hours |
| TestingDashboard.ComputeStats | src/pages/TestingDashboard.tsx:80-118 | the seven statistics from the feedback and events; no contract of its own, its fields are stated by the lemmas above and it is what Dashboard.FetchData stores |
| TestingDashboard.FilterFeedback | src/pages/TestingDashboard.tsx:138-142 | the items matching both filters; no contract of its own, stated by FeedbackFilterMeaning |
| TestingDashboard.FeedbackFilterMeaning | src/pages/TestingDashboard.tsx:138-142 | "all" is a wildcard; otherwise status and type must match |
| TestingDashboard.SetStatusById | src/pages/TestingDashboard.tsx:134 | the list keeps its length; what changes is stated by SetStatusTouchesOnlyId |
| TestingDashboard.SetStatusTouchesOnlyId | src/pages/TestingDashboard.tsx:134 | exactly the items with the id get the status; the others are unchanged |
| TestingDashboard.RatingsWithin | src/pages/TestingDashboard.tsx:83 | the ratings kept are the stored ones, so within 1 to 5 when the stored ones are |
| TestingDashboard.Dashboard.constructor | src/pages/TestingDashboard.tsx:45-50 | the dashboard starts empty and loading, with both filters on "all" |
| TestingDashboard.Dashboard.CountPageViews | src/pages/TestingDashboard.tsx:92-98 | the loop's counts and first-seen order are the specification's |
| TestingDashboard.Dashboard.FetchData | src/pages/TestingDashboard.tsx:56-125 | the rows (or [] for null) are stored, and the stats are computed from them |
| TestingDashboard.Dashboard.UpdateFeedbackStatus | src/pages/TestingDashboard.tsx:127-136 | success sets the status by id; failure changes nothing |
| LearningQuiz.IsCorrect | src/pages/LearningQuiz.tsx:61-62 | correct iff the first option with the selected id is correct |
| LearningQuiz.FindCorrect | src/pages/LearningQuiz.tsx:61-62 | true iff the first option with the selected id is a correct one |
| LearningQuiz.AnswerKey | src/pages/LearningQuiz.tsx:23-53 | the correct answers are b, c and b, and no other answer is correct |
| LearningQuiz.OnlyKeyIsCorrect | src/pages/LearningQuiz.tsx:23-53 | in the options of a question keyed b or c, exactly the key is correct |
| LearningQuiz.FinalScore | src/pages/LearningQuiz.tsx:78 | the integer nearest 100·score/count, halves rounded up |
| LearningQuiz.FinalScoreRange | src/pages/LearningQuiz.tsx:78 | the percentage lies between 0 and 100, is 100 for all correct and 0 for none |
| LearningQuiz.ThreeQuestionScores | src/pages/LearningQuiz.tsx:78 | with three questions the percentages are 0, 33, 67 and 100 |
| LearningQuiz.TierOf | src/pages/LearningQuiz.tsx:102-106 | 80 or more is mastery, 60 to 79 "good job", less "keep learning"; no contract of its own, stated by TiersForThreeQuestions |
| LearningQuiz.TiersForThreeQuestions | src/pages/LearningQuiz.tsx:102-106 | all three correct is "mastered", two is "good", fewer is "keep learning" |
| LearningQuiz.SummaryMarks | src/pages/LearningQuiz.tsx:124-131 | question idx is marked correct iff idx < score |
| LearningQuiz.SummaryIgnoresWhichAnswersWereRight | src/pages/LearningQuiz.tsx:124-131 | answering only the second question correctly marks the first as correct and the second as wrong |
| LearningQuiz.Quiz.constructor | src/pages/LearningQuiz.tsx:14-18 | the quiz starts on the first question with nothing selected, score 0 and no result |
| LearningQuiz.Quiz.Select | src/pages/LearningQuiz.tsx:179-199 | the selection changes only while no result shows |
| LearningQuiz.Quiz.Submit | src/pages/LearningQuiz.tsx:60-66 | when offered, the score grows by 1 iff the answer is correct and the result shows; the score stays within the answers submitted |
| LearningQuiz.Quiz.Next | src/pages/LearningQuiz.tsx:68-76 | before the last question: the next one, cleared; on the last: complete |
| LearningQuiz.Quiz.CompleteScoreBound | src/pages/LearningQuiz.tsx:78-80 | once complete, the score is at most the number of questions and the percentage within 0 to 100 |
| LearningStory.SceneRewardBounds | src/pages/LearningStory.tsx:22-65 | every choice of a scene rewards between that scene's least and most points |
| LearningStory.Progress | src/pages/LearningStory.tsx:69 | between 20 and 100, and 100 exactly on the last scene |
| LearningStory.Story.constructor | src/pages/LearningStory.tsx:12-15 | the story starts on the first scene with no choice, no points and audio on |
| LearningStory.Story.Choose | src/pages/LearningStory.tsx:72-74 | a first choice records its id and adds its reward; a second is ignored |
| LearningStory.Story.PauseEnds | src/pages/LearningStory.tsx:76-81 | after a choice, a non-final scene advances and clears the choice; the last scene stays |
| LearningStory.Story.ToggleAudio | src/pages/LearningStory.tsx:105 | the audio switch flips and nothing else changes |
| LearningStory.Story.CompletedXpRange | src/pages/LearningStory.tsx:22-74 | a completed story has earned between 70 and 85 points |
| Tracking.Toggled | src/pages/Tracking.tsx:84-88 | length, ids, names and initials are kept; canView flips exactly for the given id |
| Tracking.ToggleTwiceRestores | src/pages/Tracking.tsx:84-88 | toggling the same id twice restores the list |
| Tracking.ToggleAbsentId | src/pages/Tracking.tsx:85-87 | an absent id changes nothing |
| Tracking.ToggleTouchesOnlyId | src/pages/Tracking.tsx:85-87 | a contact with another id is unchanged |
| Tracking.TrackingPage.constructor | src/pages/Tracking.tsx:50-58 | tracking off, sharing and check-in on, and the three trusted contacts of whom two can view |
| Tracking.TrackingPage.ToggleContactVisibility | src/pages/Tracking.tsx:84-88 | the contacts become their toggled copy and the switches are unchanged |
| Tracking.TrackingPage.SetTracking | src/pages/Tracking.tsx:146-163 | the tracking switch takes the value and nothing else changes |
| Tracking.TrackingPage.SetLocationSharing | src/pages/Tracking.tsx:189 | the sharing switch takes the value and nothing else changes |
| Tracking.TrackingPage.SetAutoCheckIn | src/pages/Tracking.tsx:202 | the check-in switch takes the value and nothing else changes |
| Emergency.ServiceIcon | src/pages/Emergency.tsx:85-92 | police, hospital and ngo get their own icons; anything else the map pin |
| Emergency.ServiceTone | src/pages/Emergency.tsx:94-101 | police, hospital and ngo get their own colours; anything else the foreground colour |
| Emergency.IconAndToneAgree | src/pages/Emergency.tsx:85-101 | the map pin goes with the foreground colour and only with it |
| Emergency.DirectoryHasKnownTypes | src/pages/Emergency.tsx:42-83 | every listed service has a type with its own icon |
| Emergency.Matches | src/pages/Emergency.tsx:104-105 | the lower-cased query occurs in the lower-cased name or type; a predicate, stated by ShownMeaning and SearchIgnoresCase |
| Emergency.Filtered | src/pages/Emergency.tsx:103-106 | at most the listed services; which are kept is stated by ShownMeaning and EmptySearchShowsAll |
| Emergency.Shown | src/pages/Emergency.tsx:175-176 | at most the listed services; which are kept is stated by ShownMeaning and ShownKeepsOrder |
| Emergency.ShownMeaning | src/pages/Emergency.tsx:103-106 | a service is shown iff it is listed, its lower-cased name or type contains the lower-cased query, and it belongs to the tab ("all" holds everything) |
| Emergency.ShownKeepsOrder | src/pages/Emergency.tsx:175-176 | the shown services keep the directory order |
| Emergency.EmptySearchShowsAll | src/pages/Emergency.tsx:103-106 | an empty query matches every service, and "all" then shows the whole directory |
| Emergency.SearchIgnoresCase | src/pages/Emergency.tsx:104-105 | upper-casing the query does not change what matches |

## Left out

- Network, storage and database calls are not executed. Each becomes an input describing its outcome: `Reply`, `Invoke`, `DbReply`, or the booleans `updated`/`deleted`/`uploaded`. The database's own guarantees (ordering, filters, limits) are preconditions on the rows it returns.
- `JSON.parse` and the shape of decoded objects are a `decode` parameter. The error text inside 500 bodies is not modelled.
- Email syntax (zod's `.email()`) is the parameter `isEmail`. `dateOfBirthSchema` depends on the clock and is the boolean `dateOfBirthOk`.
- zod's default message for a wrong user type is abbreviated to one text.
- `Validation.Age` takes a real number: non-numbers and NaN are not modelled.
- Strings are sequences of characters. Trimming, case conversion and `\s` cover ASCII only. Lengths count characters, not UTF-16 code units.
- Timestamps are `Instant` integers or opaque strings. ISO rendering, message timestamps and `Date.now()` are parameters.
- Timers are explicit steps: `Session.Tick` and `Story.PauseEnds`. The realtime channel's lifecycle, the reader-exception paths and an exception thrown by `onDelta` are not modelled. Stale closures and concurrent updates are concurrency and out of scope.
- Prompt texts are reduced to their variable parts. The coping-strategy prompt text is not modelled.
- Page reloads, navigation, the document object and `localStorage` are fields or out of scope.
- The document's `dir` attribute is one of two values, `Ltr` or `Rtl`. The initial attribute is assumed to be one of them.
- `FeedbackDialog.Dialog.Submit`: the row is built before `loading` is raised, and the busy state in the middle of the request is not observed. Only the flag's values before and after the call are stated.
- `TestingDashboard.Dashboard.FetchData`: both query results arrive together. The `loading` flag is stated only after the call.
- `TestingDashboard.SortByVisits`: the order of entries with equal visits is not claimed. `Object.entries` puts integer-like keys first, and the model keeps insertion order. A `null` page URL is modelled as the empty string. The query limits (100 and 500 rows) and ordering belong to the database.
- `LearningQuiz.FinalScore`: uses exact rounding of 100·score/count, with halves rounded up, rather than floating point. `LearningQuiz.ThreeQuestionScores` gives the values that coincide with floating point for the quiz's three questions.
- `LearningStory.Progress`: computed on reals, not floating point.
- `SafetyAlertsList.SeverityStyle`: its contract names only the default style. The other styles are distinguished by `SafetyAlertsList.SeverityStylesDistinct`.
- `ContentModeration.Moderate`, `CopingStrategies.Handle`, `TranslateContent.Handle`, `SendNotification.Handle`, `CounselingChat.Handle`: each takes the request body already parsed. A body that is not JSON, or is `null`, makes `await req.json()` or the destructuring throw, and the handler answers 500; this path is not represented.
- `TranslateContent.Instruction`, `CounselingChat.AudienceFor`, `CounselingSession.IconFor`: the lookups are keyed by request or reply text, and in JavaScript a key such as "toString" reaches a prototype member, which is truthy and is then used as the instruction, prompt or icon. The model falls back to the default for every unknown key. `SendNotification.ConfigFor` is not affected in its outcome, because the prototype member has no `sendAlways` or `urgent`.
- `TestingDashboard.AverageRating`: computed on reals, not floating point.
- `Profile.ProfileStore.UpdateProfile`: a profile holds only the user id, full name and avatar URL, and an update may set either of the last two. That a returned row carries the sent fields is a precondition standing for the database's update. `getPublicUrl` is the parameter `publicUrlOf`.
- `CounselingSession.RecentTopics`: the coping-strategies request made after a send (from the stream's `onDone`) reads the transcript captured before the send, so it does not contain the message just sent. `CounselingSession.Session.LoadCopingStrategies` takes only the reply; the request body it would send is not built, so the model does not say which transcript its topics come from.
- `FeedbackDialog.Dialog.Submit`: the `supabase.rpc('exec_sql', {})` call made before the insert, whose result is ignored, is not modelled.
- Presentational data is reduced to the fields the logic reads: icons, descriptions, distances and ratings of services, journey lists and audio playback.
