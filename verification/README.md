# xeno-crm campaign delivery, modelled in Dafny

This project models the core of the xeno-crm customer-relationship system.
The centre is the campaign delivery pipeline:

- the campaign routes create a campaign and start its delivery, which writes one communication log per segment customer;
- the simulated vendor reports each send as a delivery receipt;
- the consumer service buffers those receipts and applies them to the log table in batched transactions;
- the campaign controller reports sent, failed and delivery-rate statistics over the logs.

Around it the project models several smaller cores:

- the Java variant of the campaign lifecycle (draft, scheduled, running, completed) with its counters;
- the tenant-scoped segment store;
- the parser that turns an AI text reply into message suggestions;
- the two mock list endpoints of the frontend, with search, paging and append;
- the segment-rule tree editor;
- the client layout's redirect and render guard;
- the live-update hook driven by server-sent events.

Tables are sequences or maps held in store classes. A queue delivery is a method call. A timer firing is an explicit call. The outcomes of random draws, clocks, database commits and network posts are parameters. One file holds each module:

| file | module | models |
|---|---|---|
| wrappers.dfy | Wrappers | `Option` and `Result` |
| json.dfy | Json | JSON values as the handlers receive them |
| text.dfy | Text | the JavaScript string operations used (trim, split, join, lower case, includes, startsWith, lastIndexOf) |
| records.dfy | Records | the Prisma rows shared by the TypeScript backend, the receipt format, HTTP error codes |
| vendor.dfy | Vendor | backend/src/services/vendor.service.ts |
| consumer.dfy | Consumer | backend/src/services/consumer.service.ts |
| campaign_routes.dfy | CampaignRoutes | backend/src/routes/campaign.routes.ts |
| campaign_controller.dfy | CampaignController | backend/src/controllers/campaign.controller.ts |
| java_campaigns.dfy | JavaCampaigns | backend/src/main/java/com/xeno/crm/service/CampaignService.java |
| segments.dfy | Segments | backend/src/services/segment.service.ts and campaign.service.ts |
| ai_text.dfy | AiText | the text handling of backend/src/services/aiService.ts |
| paging.dfy | Paging | search, paging and record creation shared by the two mock list routes |
| orders_route.dfy | OrdersRoute | frontend/src/app/api/orders/route.ts |
| customers_route.dfy | CustomersRoute | frontend/src/app/api/customers/route.ts |
| rule_tree.dfy | RuleTree | the rule editor of frontend/src/app/dashboard/campaigns/new/page.tsx |
| route_guard.dfy | RouteGuard | frontend/src/app/components/ClientLayout.tsx |
| realtime.dfy | Realtime | frontend/src/app/hooks/useRealtimeUpdates.ts |

## Model

| member | source | states |
|---|---|---|
| Text.TrimStart | backend/src/services/aiService.ts:66 | a suffix of the input that drops only leading whitespace and starts with a non-space character, if any |
| Text.TrimEnd | backend/src/services/aiService.ts:66 | a prefix of the input that drops only trailing whitespace and ends with a non-space character, if any |
| Text.Trim | backend/src/services/aiService.ts:66 | empty, or starting and ending with a non-space character |
| Text.TrimIsMiddle | backend/src/services/aiService.ts:66 | the trim is a contiguous slice of the input with only white space before and after it |
| Text.TrimIdempotent | backend/src/services/aiService.ts:66 | trimming twice is trimming once |
| Text.JoinSplit | backend/src/services/aiService.ts:64-68 | joining the pieces of a split with the same separator gives the text back |
| Text.Split | backend/src/services/aiService.ts:65 | at least one piece, and no piece holds the separator |
| Text.Join | backend/src/services/aiService.ts:68 | the join starts with the first piece and, when there are two or more, with the first piece and a separator |
| Text.SplitJoin | backend/src/services/aiService.ts:64-68 | splitting a join of separator-free pieces gives the pieces back |
| Text.LowerAscii | frontend/src/app/api/orders/route.ts:31 | same length; each character lower-cased on its own |
| Text.Contains | frontend/src/app/api/orders/route.ts:31 | a contained string is no longer than the text, and a prefix is contained |
| Text.StartsWith | frontend/src/app/components/ClientLayout.tsx:17 | true exactly when the prefix fits and the text begins with it; a prefix is also contained |
| Text.LastIndexOf | backend/src/services/aiService.ts:147 | -1 exactly when the character is absent; otherwise a position holding it with no later occurrence |
| Records.PendingLog | backend/src/routes/campaign.routes.ts:127-133 | a new log has the given campaign and customer, status PENDING, no sentAt and no error |
| Records.OutcomeReceipt | backend/src/services/consumer.service.ts:137-142 | SENT with a null error exactly on success; otherwise FAILED with "Vendor delivery failed"; the ids of the send |
| Vendor.VendorService.SendMessage | backend/src/services/vendor.service.ts:15-52 | true exactly when nothing threw early and the draw is below 0.9; exactly one receipt posted for the call's pair, matching the result; a failed post changes neither the result nor the attempt |
| Vendor.VendorService.SendDeliveryReceipt | backend/src/services/vendor.service.ts:54-66 | the receipt is attempted once; it reaches the endpoint only if the post succeeds, and a failure is swallowed |
| Vendor.VendorService.constructor | backend/src/services/vendor.service.ts:11-13 | no receipt posted or delivered yet |
| Consumer.ParseReceiptStatus | backend/src/services/consumer.service.ts:40 | accepts exactly the strings SENT and FAILED |
| Consumer.ParseNullableString | backend/src/services/consumer.service.ts:41 | accepts exactly a string or null; a missing key is rejected |
| Consumer.ParseReceipt | backend/src/services/consumer.service.ts:37-42 | a receipt is accepted iff both ids are strings, the status is SENT or FAILED and the error is a string or null; the ids, status and error are those of the message |
| Consumer.ParseEncodeReceipt | backend/src/services/consumer.service.ts:137-142 | every receipt the campaign consumer publishes passes the receipt schema unchanged |
| Consumer.EncodeReceipt | backend/src/services/consumer.service.ts:137-142 | each field of the published receipt reads back through the receipt schema's own field parser |
| Consumer.ParseCampaignMessage | backend/src/services/consumer.service.ts:28-34 | a task is accepted iff its five fields are strings; all five are kept, so the message and customer name reach the vendor payload unchanged |
| Consumer.UpdateLog | backend/src/services/consumer.service.ts:189-199 | a row of another pair is untouched; a matching row takes the status, sentAt only for SENT, error only for a non-empty error |
| Consumer.ApplyReceipt | backend/src/services/consumer.service.ts:189-199 | `updateMany` touches every row of the table, each by the row update, and keeps the row count |
| Consumer.ApplyBatch | backend/src/services/consumer.service.ts:187-201 | the transaction keeps the number of rows; row by row it is ApplyAll (ApplyBatchPointwise) |
| Consumer.ApplyAll | backend/src/services/consumer.service.ts:187-201 | replaying the batch on one row never changes which campaign and customer the row belongs to |
| Consumer.ApplyBatchPointwise | backend/src/services/consumer.service.ts:187-201 | the transaction acts on each row independently of the others |
| Consumer.LastMatch | backend/src/services/consumer.service.ts:188-200 | None exactly when no receipt addresses the row's pair |
| Consumer.LastMatchIsLast | backend/src/services/consumer.service.ts:188-200 | otherwise a receipt addressed to the pair with no later receipt addressed to it |
| Consumer.LastError | backend/src/services/consumer.service.ts:188-200 | None exactly when no receipt for the pair carries a non-empty error |
| Consumer.LastErrorIsLast | backend/src/services/consumer.service.ts:188-200 | otherwise the error of an error-carrying receipt for the pair with no later one carrying an error |
| Consumer.SameKeySameMatches | backend/src/services/consumer.service.ts:190-193 | which receipts address a row depends only on its (campaign, customer) pair |
| Consumer.ApplyAllSettled | backend/src/services/consumer.service.ts:187-201 | replaying a batch on a row equals the closed form: last status, sentAt if any SENT, last non-empty error |
| Consumer.BatchOutcome | backend/src/services/consumer.service.ts:187-201 | each row after a flush is its closed form; a row no receipt addresses is unchanged; a later receipt for a pair overrides an earlier one |
| Consumer.NoMatchNoEffect | backend/src/services/consumer.service.ts:190-193 | a row no receipt addresses gets no sentAt and no error |
| Consumer.ReapplyBatch | backend/src/services/consumer.service.ts:188-200 | re-applying a batch, at any later time, leaves every row's status and error as they were |
| Consumer.ApplyBatchIdempotent | backend/src/services/consumer.service.ts:188-200 | with the same timestamp, a flush applied twice equals it applied once |
| Consumer.Requeue | backend/src/services/consumer.service.ts:206-207 | after a failed flush the buffer holds the newer receipts followed by the whole snapshot, nothing lost or added |
| Consumer.RequeueAsWritten | backend/src/services/consumer.service.ts:207 | the catch block raises a ReferenceError, and no snapshot receipt that did not also arrive anew stays buffered |
| Consumer.FailedFlushScenario | backend/src/services/consumer.service.ts:183-207 | a failed flush of three receipts loses all three as written; as intended all three stay buffered |
| Consumer.ConsumerService.constructor | backend/src/services/consumer.service.ts:45 | the buffer starts empty, with no armed timer and nothing published |
| Consumer.ConsumerService.HandleCampaignMessage | backend/src/services/consumer.service.ts:124-149 | a malformed task is rejected before any send; otherwise one vendor send, one published receipt that matches its result, and that receipt delivered to the endpoint exactly when its post succeeds |
| Consumer.ConsumerService.Receive | backend/src/services/consumer.service.ts:152-170 | as intended (see Findings): an invalid receipt changes nothing; a valid one is appended; at 50 or more it flushes at once, and a failed flush keeps the receipts buffered; otherwise one deferred flush is armed and no row changes |
| Consumer.ConsumerService.OnTimer | backend/src/services/consumer.service.ts:164 | as intended (see Findings): a deferred flush consumes its timer; on an empty buffer nothing else changes; a failed flush keeps the receipts buffered |
| Consumer.ConsumerService.ProcessBatch | backend/src/services/consumer.service.ts:179-209 | as intended (see Findings): an empty buffer is a no-op; a committed flush empties the buffer and applies it; a failed one leaves the rows and keeps the receipts |
| Consumer.ConsumerService.ReceiveAsWritten | backend/src/services/consumer.service.ts:152-170 | as written: like Receive, except that a failed immediate flush leaves the buffer empty and the handler rethrows |
| Consumer.ConsumerService.OnTimerAsWritten | backend/src/services/consumer.service.ts:164 | as written: a failed deferred flush leaves the buffer empty and its error escapes |
| Consumer.ConsumerService.ProcessBatchAsWritten | backend/src/services/consumer.service.ts:177-209 | as written: an empty buffer is a no-op; a committed flush empties the buffer and applies it; a failed one leaves the rows, empties the buffer and raises the ReferenceError |
| Consumer.ConsumerService.TakeSnapshot | backend/src/services/consumer.service.ts:183-184 | the snapshot is the buffer, and the buffer is cleared |
| Consumer.ConsumerService.FinishFlush | backend/src/services/consumer.service.ts:187-207 | on commit the rows hold the snapshot's updates; on failure no row changes and the snapshot is re-buffered after newer receipts |
| Consumer.ConsumerService.FinishFlushAsWritten | backend/src/services/consumer.service.ts:204-208 | on failure no row changes, the error escapes and the snapshot is dropped |
| Consumer.ConsumerService.ApplyInPlace | backend/src/services/consumer.service.ts:187-201 | the update loop over the log array leaves it equal to the batch applied to its old contents |
| CampaignRoutes.Patched | backend/src/routes/campaign.routes.ts:69-76 | each given field overwrites (name, message, segment, and the status the text names, with no transition check), each absent field stays; the owner stays; an empty body changes nothing |
| CampaignRoutes.ParseCampaignStatus | backend/src/routes/campaign.routes.ts:73 | exactly the four enum texts name a status |
| CampaignRoutes.PatchedTwice | backend/src/routes/campaign.routes.ts:67-86 | repeating an update changes nothing more |
| CampaignRoutes.Persisted | backend/src/routes/campaign.routes.ts:125-135 | at most the created rows |
| CampaignRoutes.PersistedKeeps | backend/src/routes/campaign.routes.ts:125-135 | every row whose create succeeds persists |
| CampaignRoutes.PersistedOnly | backend/src/routes/campaign.routes.ts:125-135 | only rows whose create succeeds persist |
| CampaignRoutes.PersistedAll | backend/src/routes/campaign.routes.ts:125-135 | with no failed create, all created rows persist in order |
| CampaignRoutes.PersistedFewer | backend/src/routes/campaign.routes.ts:125-135 | with a failed create, fewer rows persist than were created |
| CampaignRoutes.Created | backend/src/routes/campaign.routes.ts:125-135 | one PENDING log per segment customer, in customer order |
| CampaignRoutes.SettleLog | backend/src/routes/campaign.routes.ts:139-158 | the row keeps its pair and is never PENDING afterwards; SENT with the send time when the SENT update succeeds, otherwise FAILED with the fixed error |
| CampaignRoutes.FirstAbort | backend/src/routes/campaign.routes.ts:139-158 | the first log whose two updates both throw, or the number of logs; no earlier log aborts |
| CampaignRoutes.Dispatched | backend/src/routes/campaign.routes.ts:139-158 | the loop keeps the number of created logs |
| CampaignRoutes.DispatchedAt | backend/src/routes/campaign.routes.ts:139-158 | the logs before the stop are settled, SENT or FAILED by their fault; those from it on are as created |
| CampaignRoutes.DispatchedStep | backend/src/routes/campaign.routes.ts:139-158 | settling the next appended log extends the settled prefix by one |
| CampaignRoutes.DispatchSettlesAll | backend/src/routes/campaign.routes.ts:139-158 | after a 200 every created log keeps its pair and is SENT with sentAt (exactly when its update did not throw) or FAILED with "Delivery failed"; none is PENDING |
| CampaignRoutes.CreatedPairs | backend/src/routes/campaign.routes.ts:125-135 | the created logs hold each pair as often as the customer occurs in the segment |
| CampaignRoutes.DispatchLogCount | backend/src/routes/campaign.routes.ts:103-135 | every start adds that many logs per pair, however the loop ends, so a second start doubles them |
| CampaignRoutes.CampaignStore.constructor | backend/src/routes/campaign.routes.ts:6 | no campaigns and no logs yet, over the given segment membership |
| CampaignRoutes.CampaignStore.CreateCampaign | backend/src/routes/campaign.routes.ts:45-64 | the new campaign is DRAFT whatever the body says; a missing name or message, or an unknown segment, is a 500 with no change |
| CampaignRoutes.CampaignStore.UpdateCampaign | backend/src/routes/campaign.routes.ts:67-86 | an unknown id or segment, or a status outside the enum, is a 500 with no change; otherwise the campaign is patched |
| CampaignRoutes.CampaignStore.StartCampaign | backend/src/routes/campaign.routes.ts:101-164 | an unknown campaign is a 404 with no change; otherwise status SENDING; a failed create is a 500 with the other created rows left PENDING; otherwise the created logs are appended and settled up to the first aborting update, and the reply is the PENDING logs or a 500 |
| CampaignRoutes.CampaignStore.CreateLogs | backend/src/routes/campaign.routes.ts:125-135 | the rows whose create succeeds are appended, and the batch fails exactly when a create fails |
| CampaignRoutes.CampaignStore.SettleLogs | backend/src/routes/campaign.routes.ts:139-158 | the appended logs are settled up to the first log whose two updates throw, which is reported |
| CampaignRoutes.CampaignStore.SettleOne | backend/src/routes/campaign.routes.ts:140-157 | one pass of the loop settles exactly the next created log, extending the settled prefix by one |
| CampaignController.CreateCampaign | backend/src/controllers/campaign.controller.ts:7-54 | 401 without a user; 500 for a body without segmentId; 404 for an unknown segment; 500 for a body without name or message; none of these creates anything; otherwise exactly one new DRAFT campaign owned by the caller |
| CampaignController.CampaignLogs | backend/src/controllers/campaign.controller.ts:77-79 | never more logs than the table holds; pinned by CampaignLogsExact |
| CampaignController.CampaignLogsExact | backend/src/controllers/campaign.controller.ts:77-79 | a log is selected exactly when it is among the logs and belongs to the campaign, as often as it occurs there |
| CampaignController.Count | backend/src/controllers/campaign.controller.ts:81-83 | a count bounded by the number of logs |
| CampaignController.CountPartition | backend/src/controllers/campaign.controller.ts:77-84 | sent, failed and pending counts add up to the number of logs |
| CampaignController.CountIsMultiplicity | backend/src/controllers/campaign.controller.ts:81-83 | the filter count equals the status's multiplicity among the logs |
| CampaignController.DeliveryRate | backend/src/controllers/campaign.controller.ts:84 | 0 without logs; otherwise rate·total = 100·sent; always within [0, 100], and 100 exactly when all are sent |
| CampaignController.GetCampaignStats | backend/src/controllers/campaign.controller.ts:56-95 | 401 without a user; 404 unless the caller owns the campaign; otherwise the SENT and FAILED multiplicities, whose sum is at most the log count, and the delivery rate of the SENT count over the log count |
| CampaignController.StartGrowsStats | backend/src/controllers/campaign.controller.ts:77-84 | after a 200 start, sent plus failed grows by the number of segment customers and pending is unchanged |
| CampaignController.StatsExample | backend/src/controllers/campaign.controller.ts:81-85 | two SENT and one FAILED log give totals 2 and 1 and a rate of 200/3; another user gets 404 |
| JavaCampaigns.WithDetails | backend/src/main/java/com/xeno/crm/service/CampaignService.java:47-58 | the eight descriptive fields come from the details; status, start and end times and counters stay |
| JavaCampaigns.Audience | backend/src/main/java/com/xeno/crm/service/CampaignService.java:120-124 | exactly the active customers |
| JavaCampaigns.AudienceExact | backend/src/main/java/com/xeno/crm/service/CampaignService.java:120-124 | every active customer occurs in the audience exactly as often as in the table, and no inactive one does |
| JavaCampaigns.MessageLog | backend/src/main/java/com/xeno/crm/service/CampaignService.java:126-153 | DELIVERED with deliveredAt on success, FAILED with "Simulated delivery failure" otherwise; never left SENT |
| JavaCampaigns.SentLogs | backend/src/main/java/com/xeno/crm/service/CampaignService.java:84-89 | one log per audience customer, in order |
| JavaCampaigns.SendMessages | backend/src/main/java/com/xeno/crm/service/CampaignService.java:84-89 | a null counter with a non-empty audience throws NullPointer; otherwise one log per audience customer in loop order and the counters tallied over the draws |
| JavaCampaigns.Tallied | backend/src/main/java/com/xeno/crm/service/CampaignService.java:150-151 | the delivered counter grows by the successes and the failed counter by the failures; nothing else changes |
| JavaCampaigns.CountersMatchLogs | backend/src/main/java/com/xeno/crm/service/CampaignService.java:126-153 | the saved logs hold as many DELIVERED as successes, as many FAILED as failures, and none SENT |
| JavaCampaigns.StartCounters | backend/src/main/java/com/xeno/crm/service/CampaignService.java:150-151 | delivered plus failed grows by the audience size, delivered by the successes |
| JavaCampaigns.CalculateRate | backend/src/main/java/com/xeno/crm/service/CampaignService.java:155-160 | 0 for a null or zero total; otherwise rate·total = count, within [0, 1] when the count is at most the total |
| JavaCampaigns.WithoutCampaign | backend/src/main/java/com/xeno/crm/model/Campaign.java:69-70 | the cascade leaves exactly the logs of other campaigns |
| JavaCampaigns.CampaignService.constructor | backend/src/main/java/com/xeno/crm/service/CampaignService.java:22-27 | no campaigns and no logs yet, over the given customer table, with ids starting at 1 |
| JavaCampaigns.CampaignService.CreateCampaign | backend/src/main/java/com/xeno/crm/service/CampaignService.java:29-33 | stored as DRAFT whatever status it had; a body id naming a stored campaign replaces that campaign, otherwise it is stored under a new id |
| JavaCampaigns.CampaignService.GetCampaignById | backend/src/main/java/com/xeno/crm/service/CampaignService.java:36-39 | the stored campaign, or not-found exactly when the id is absent |
| JavaCampaigns.CampaignService.UpdateCampaign | backend/src/main/java/com/xeno/crm/service/CampaignService.java:47-58 | not-found with no change, or only the descriptive fields replaced |
| JavaCampaigns.CampaignService.DeleteCampaign | backend/src/main/java/com/xeno/crm/service/CampaignService.java:61-64 | not-found with no change, or the campaign and its logs removed |
| JavaCampaigns.CampaignService.ScheduleCampaign | backend/src/main/java/com/xeno/crm/service/CampaignService.java:67-72 | SCHEDULED at the given time from any status, or not-found with no change |
| JavaCampaigns.CampaignService.StartCampaign | backend/src/main/java/com/xeno/crm/service/CampaignService.java:75-90 | RUNNING with start time and audience size; one log per active customer and counters tallied; a null counter rolls everything back |
| JavaCampaigns.CampaignService.CompleteCampaign | backend/src/main/java/com/xeno/crm/service/CampaignService.java:93-98 | COMPLETED with an end time from any status, or not-found with no change |
| Segments.AudienceSize | backend/src/services/segment.service.ts:116-119 | an integer in [0, 999], the floor of draw·1000, independent of the rules |
| Segments.WelcomeCampaign | backend/src/services/campaign.service.ts:12-27 | a DRAFT campaign named "Welcome Campaign - " + the segment name, referencing the segment and its owner |
| Segments.IndexOf | backend/src/services/segment.service.ts:57-70 | the position of the id, or None exactly when it is absent |
| Segments.Lookup | backend/src/services/segment.service.ts:57-70 | found exactly when id and owner both match; otherwise NotFound |
| Segments.OwnedExact | backend/src/services/segment.service.ts:104-114 | a segment is selected exactly when it is in the table and belongs to the owner |
| Segments.Reverse | backend/src/services/segment.service.ts:108 | the segments in reverse order, same members |
| Segments.Patched | backend/src/services/segment.service.ts:72-88 | the name if given; new rules replace rules and redraw the size, otherwise both stay |
| Segments.SegmentService.constructor | backend/src/services/segment.service.ts:24 | no segments and no campaigns yet |
| Segments.SegmentService.CreateSegment | backend/src/services/segment.service.ts:29-55 | exactly one new segment and one DRAFT welcome campaign referencing it |
| Segments.SegmentService.GetSegment | backend/src/services/segment.service.ts:57-70 | the lookup by id and owner |
| Segments.SegmentService.UpdateSegment | backend/src/services/segment.service.ts:72-88 | NotFound with no change unless the caller owns it; otherwise only that segment is patched |
| Segments.SegmentService.DeleteSegment | backend/src/services/segment.service.ts:90-102 | NotFound with no change unless the caller owns it; otherwise exactly that segment is removed |
| Segments.SegmentService.ListSegments | backend/src/services/segment.service.ts:104-114 | exactly the caller's segments, newest first |
| Segments.LookupAfterCreate | backend/src/services/segment.service.ts:29-70 | a new segment is found by its owner only; other lookups are unchanged |
| Segments.ListAfterCreate | backend/src/services/segment.service.ts:104-114 | a new segment heads its owner's list; other owners' lists stay |
| Segments.LookupAfterDelete | backend/src/services/segment.service.ts:90-102 | a deleted segment is found by no one; other lookups are unchanged |
| AiText.CleanLines | backend/src/services/aiService.ts:64-68 | no empty line; every line is trimmed |
| AiText.CleanLinesAppend | backend/src/services/aiService.ts:64-68 | cleaning works line by line, keeping order: it distributes over concatenation |
| AiText.CleanLinesSingle | backend/src/services/aiService.ts:64-68 | a single line is kept, as its trim, exactly when that trim is not empty |
| AiText.Cleanup | backend/src/services/aiService.ts:64-68 | empty exactly when no line survives cleaning; otherwise its lines are exactly the cleaned lines |
| AiText.CleanupLines | backend/src/services/aiService.ts:64-68 | the cleaned text is empty, or its lines are non-empty and each equals its own trim |
| AiText.CleanupIdempotent | backend/src/services/aiService.ts:64-68 | cleaning twice is cleaning once |
| AiText.ListNumberLength | backend/src/services/aiService.ts:145 | 0 when the line does not start with digits and a dot; otherwise an end past the dot with only white space between and no white space after it |
| AiText.ListNumberLongest | backend/src/services/aiService.ts:145 | any end the pattern allows after the digits and the dot is the one found: the match is unique |
| AiText.StripListNumber | backend/src/services/aiService.ts:145 | the line after that prefix |
| AiText.SplitTone | backend/src/services/aiService.ts:147-161 | no pipe gives nothing; a result has a non-empty trimmed message and a non-empty pipe-free tone |
| AiText.SplitAtLastPipe | backend/src/services/aiService.ts:147-154 | a message, a pipe and a pipe-free tone split back into the trimmed message and tone, even when the message holds pipes |
| AiText.ParseLine | backend/src/services/aiService.ts:143-162 | every suggestion a line yields is well formed |
| AiText.NonBlank | backend/src/services/aiService.ts:142 | only lines that are not blank |
| AiText.NonBlankAppend | backend/src/services/aiService.ts:142 | dropping blank lines works line by line, keeping order: it distributes over concatenation |
| AiText.NonBlankSingle | backend/src/services/aiService.ts:142 | a single line is kept, unchanged, exactly when it is not blank |
| AiText.Present | backend/src/services/aiService.ts:163 | exactly the suggestions that are present |
| AiText.ParseLines | backend/src/services/aiService.ts:140-163 | at most one suggestion per line |
| AiText.ParsedWellFormed | backend/src/services/aiService.ts:140-163 | every parsed suggestion is well formed |
| AiText.ParseLinesAppend | backend/src/services/aiService.ts:140-163 | parsing keeps input order: it distributes over concatenation |
| AiText.ParseSingleLine | backend/src/services/aiService.ts:143-163 | a line yields its suggestion or nothing |
| AiText.ParseSuggestions | backend/src/services/aiService.ts:140-163 | at most one suggestion per reply line, each well formed |
| AiText.TopThree | backend/src/services/aiService.ts:172-174 | a prefix of at most three; exactly three when available |
| AiText.Fallback | backend/src/services/aiService.ts:186-199 | three suggestions toned friendly, exciting and urgent, with the objective's texts |
| AiText.GenerateMessageSuggestions | backend/src/services/aiService.ts:136-199 | one to three suggestions; the fallback when the call fails or nothing parses; otherwise the first three parsed suggestions, or all of them when fewer |
| AiText.Summarize | backend/src/services/aiService.ts:225-231 | of the already cleaned reply: the first non-blank line, or a fixed text, and the remaining non-blank lines in order |
| Paging.MatchEntry | frontend/src/app/api/orders/route.ts:29-33 | short-circuit case-insensitive match on two properties; fails exactly when a property it must read is not a string |
| Paging.Search | frontend/src/app/api/orders/route.ts:29-33 | fails iff some entry's match fails; otherwise exactly the matching entries |
| Paging.SearchAppend | frontend/src/app/api/orders/route.ts:29-33 | filtering keeps order: it distributes over concatenation |
| Paging.EmptyQueryMatchesAll | frontend/src/app/api/orders/route.ts:26-33 | an empty query returns every entry |
| Paging.Slice | frontend/src/app/api/orders/route.ts:38 | for non-negative bounds, the clamped slice when they are ordered and empty when they are not |
| Paging.SliceFromEnd | frontend/src/app/api/orders/route.ts:38 | a negative bound counts from the end |
| Paging.Page | frontend/src/app/api/orders/route.ts:36-38 | at most `limit` entries; empty for page 0; for page ≥ 1 the entries from (page-1)·limit to page·limit |
| Paging.PageNegative | frontend/src/app/api/orders/route.ts:36-38 | a negative page is the window of `limit` entries that ends \|page\|·limit before the end, cut at the start |
| Paging.TotalPages | frontend/src/app/api/orders/route.ts:44 | the least page count whose pages hold the total |
| Paging.PagesPrefix | frontend/src/app/api/orders/route.ts:36-38 | pages 1 to n together are the first n·limit entries |
| Paging.PagesCover | frontend/src/app/api/customers/route.ts:30-38 | pages 1 to totalPages together are the filtered list |
| Paging.PageBeyond | frontend/src/app/api/customers/route.ts:30-38 | a page past the last is empty |
| Paging.List | frontend/src/app/api/orders/route.ts:22-49 | a failed search is a 500; otherwise the page, the filtered total, the page count, page and limit |
| Paging.Spread | frontend/src/app/api/orders/route.ts:58 | an object spreads its own properties; null, booleans and numbers spread nothing |
| Paging.NewEntry | frontend/src/app/api/orders/route.ts:56-59 | every spread property is kept, and a body id overrides the generated one |
| OrdersRoute.InitialOrders | frontend/src/app/api/orders/route.ts:4-20 | two orders with string names and ids |
| OrdersRoute.OrderStore.constructor | frontend/src/app/api/orders/route.ts:4-20 | the list starts as the two demonstration orders |
| OrdersRoute.OrderStore.Get | frontend/src/app/api/orders/route.ts:22-49 | the list reply; every returned order is stored and matches the query on name or id |
| OrdersRoute.OrderStore.Post | frontend/src/app/api/orders/route.ts:51-70 | a non-JSON body is a 500 with no change; otherwise exactly the new order is appended and returned |
| OrdersRoute.InitialListing | frontend/src/app/api/orders/route.ts:22-49 | the first page of the initial data with no query holds both orders on one page |
| OrdersRoute.SinglePageListing | frontend/src/app/api/orders/route.ts:22-49 | with no query, orders that fit one page are all listed on page 1, with total and one page |
| OrdersRoute.NamelessOrderBreaksListing | frontend/src/app/api/orders/route.ts:29-33 | after posting an order without a string customer name, every GET is a 500 |
| CustomersRoute.InitialCustomers | frontend/src/app/api/customers/route.ts:4-14 | one customer with string name and e-mail |
| CustomersRoute.CustomerStore.constructor | frontend/src/app/api/customers/route.ts:4-14 | the list starts as the demonstration customer |
| CustomersRoute.CustomerStore.Get | frontend/src/app/api/customers/route.ts:16-43 | the list reply; every returned customer is stored and matches on name or e-mail |
| CustomersRoute.CustomerStore.Post | frontend/src/app/api/customers/route.ts:45-64 | a non-JSON body is a 500 with no change; otherwise exactly the new customer is appended and returned |
| CustomersRoute.PostedCustomerFound | frontend/src/app/api/customers/route.ts:23-27 | a posted customer is found by a search for its name |
| RuleTree.DefaultCondition | frontend/src/app/dashboard/campaigns/new/page.tsx:18 | spend > 0 |
| RuleTree.DefaultGroup | frontend/src/app/dashboard/campaigns/new/page.tsx:19 | an AND group holding exactly one default condition |
| RuleTree.SetKind | frontend/src/app/dashboard/campaigns/new/page.tsx:26 | only the attribute changes |
| RuleTree.SetOperator | frontend/src/app/dashboard/campaigns/new/page.tsx:33 | only the comparison changes |
| RuleTree.SetValue | frontend/src/app/dashboard/campaigns/new/page.tsx:45 | only the value changes |
| RuleTree.SetLogic | frontend/src/app/dashboard/campaigns/new/page.tsx:57-59 | only the logic changes; children untouched |
| RuleTree.AddCondition | frontend/src/app/dashboard/campaigns/new/page.tsx:60-62 | one default condition appended; earlier children and logic unchanged |
| RuleTree.AddGroup | frontend/src/app/dashboard/campaigns/new/page.tsx:63-65 | one default group appended; earlier children and logic unchanged |
| RuleTree.ChangeChild | frontend/src/app/dashboard/campaigns/new/page.tsx:66-69 | only position idx is replaced, length kept; an index outside changes nothing |
| RuleTree.RemoveChild | frontend/src/app/dashboard/campaigns/new/page.tsx:70-72 | one child fewer, the others in order; an index outside changes nothing |
| RuleTree.Subgroup | frontend/src/app/dashboard/campaigns/new/page.tsx:86-94 | following a path from the root is reaching the parent and then taking the last index, which must land on a group |
| RuleTree.EditAt | frontend/src/app/dashboard/campaigns/new/page.tsx:86-94 | a nested edit keeps the logic, the length and every child off its path; a path that does not exist changes nothing |
| RuleTree.EditAtReaches | frontend/src/app/dashboard/campaigns/new/page.tsx:86-94 | after a nested edit the group at its path is the edited group |
| RuleTree.EditAtOffPath | frontend/src/app/dashboard/campaigns/new/page.tsx:86-94 | every group on a path that parts from the edited one is unchanged |
| RuleTree.AddThenRemove | frontend/src/app/dashboard/campaigns/new/page.tsx:60-72 | adding then removing the last child gives the group back |
| RuleTree.ChangeChildSame | frontend/src/app/dashboard/campaigns/new/page.tsx:66-69 | replacing a child by itself changes nothing |
| RouteGuard.RedirectFor | frontend/src/app/components/ClientLayout.tsx:17-28 | no redirect while loading or on "/"; to login iff signed out on a protected page; to the dashboard iff signed in on an auth page |
| RouteGuard.ViewFor | frontend/src/app/components/ClientLayout.tsx:30-44 | spinner iff loading; auth and public pages alone; a protected page in the shell iff signed in, else nothing |
| RouteGuard.Target | frontend/src/app/components/ClientLayout.tsx:23-25 | the login page is an auth page and the dashboard is protected |
| RouteGuard.NoRedirectLoop | frontend/src/app/components/ClientLayout.tsx:20-28 | a redirect lands where no further redirect is due |
| RouteGuard.RenderAgreesWithRedirect | frontend/src/app/components/ClientLayout.tsx:20-44 | a page about to go to login shows nothing; the shell shows only where no redirect is due |
| RouteGuard.GuardAsWritten | frontend/src/app/components/ClientLayout.tsx:13 | with the flag always false, never a dashboard redirect and never the shell |
| RouteGuard.Guard | frontend/src/app/components/ClientLayout.tsx:13-44 | a signed-in user sees a protected page in the shell; a signed-out one is sent to login; a signed-in one on an auth page goes to the dashboard |
| RouteGuard.SignedInUserLockedOut | frontend/src/app/components/ClientLayout.tsx:13-44 | a signed-in user on /dashboard is sent to login as written, and shown the dashboard as intended |
| RouteGuard.ActiveOnOwnPage | frontend/src/app/components/ClientLayout.tsx:57-119 | each tab is active on its own page |
| RouteGuard.TabsExclusive | frontend/src/app/components/ClientLayout.tsx:57-119 | at most one tab is active on any path |
| RouteGuard.Active | frontend/src/app/components/ClientLayout.tsx:57-119 | a tab is only ever active on a path that starts with its own link |
| Realtime.Initial | frontend/src/app/hooks/useRealtimeUpdates.ts:10-12 | data null, no error, disconnected |
| Realtime.TypeOf | frontend/src/app/hooks/useRealtimeUpdates.ts:20-22 | a type exactly for objects with a string `type` |
| Realtime.OnMessage | frontend/src/app/hooks/useRealtimeUpdates.ts:17-28 | a bad text or null sets the error only; "connected" sets the flag only; "update" replaces the data only; anything else changes nothing |
| Realtime.OnError | frontend/src/app/hooks/useRealtimeUpdates.ts:30-33 | disconnected with the connection-lost error; data kept |
| Realtime.OnCleanup | frontend/src/app/hooks/useRealtimeUpdates.ts:35-38 | disconnected; data and error kept |
| Realtime.Next | frontend/src/app/hooks/useRealtimeUpdates.ts:17-38 | the flag is set by a "connected" message, cleared by an error or a cleanup and otherwise kept; a stored error stays |
| Realtime.Run | frontend/src/app/hooks/useRealtimeUpdates.ts:17-38 | events apply in arrival order: a run is the run of all but the last event, then the last one |
| Realtime.ErrorSticky | frontend/src/app/hooks/useRealtimeUpdates.ts:17-38 | once an error is stored no event clears it |
| Realtime.ConnectedTracksLastEvent | frontend/src/app/hooks/useRealtimeUpdates.ts:17-38 | the flag is the effect of the last event that touched it, or the initial flag if none did |
| Realtime.CleanupDisconnects | frontend/src/app/hooks/useRealtimeUpdates.ts:35-38 | after cleanup the hook stays disconnected until a "connected" message |
| Realtime.RealtimeHook.constructor | frontend/src/app/hooks/useRealtimeUpdates.ts:10-12 | the cells start in the initial state |
| Realtime.RealtimeHook.HandleMessage | frontend/src/app/hooks/useRealtimeUpdates.ts:17-28 | the cells change as the message transition says |
| Realtime.RealtimeHook.HandleError | frontend/src/app/hooks/useRealtimeUpdates.ts:30-33 | the cells change as the error transition says |
| Realtime.RealtimeHook.Close | frontend/src/app/hooks/useRealtimeUpdates.ts:35-38 | the cells change as the cleanup transition says |

## Left out

- Broker I/O: publishing, consuming and redelivery are method calls. The customer and order queue consumers (consumer.service.ts:52-121) are not part of this model.
- Time: a deferred flush is an explicit `OnTimer` call. Nothing models the 5-second delay or the order in which timers fire. Wall-clock stamps are parameters.
- Randomness and faults: the vendor draw, the Java send draws, the audience draw and generated ids are parameters. So are database commit outcomes, failed log creates and updates in the start route, and the receipt post outcome.
- Database semantics: tables are in-memory sequences and maps. Only `updateMany`'s all-matching-rows behaviour and "undefined leaves the column alone" are modelled. Database-generated ids are parameters that are required to be fresh.
- Duplicate receipts: the vendor and the campaign consumer both emit a receipt per send. The two are modelled separately, and no pipeline-wide receipt count is claimed.
- campaign.routes.ts: the list, read and delete routes (lines 1-42, 89-98) are not part of this model.
- CampaignRoutes.CampaignStore.StartCampaign: the log creates of lines 125-135 run concurrently; the model appends the rows that persist in customer order, and the order in which the database stores them is not modelled.
- CampaignRoutes: a field sent as JSON `null` is treated like an absent one, and a name or message of a non-string type is not modelled; Prisma rejects both with a 500.
- Consumer.ConsumerService.Receive: models the intended flush, which keeps the receipts of a failed flush; the code as written (see Findings) drops them and rethrows, as ReceiveAsWritten states.
- Consumer.ConsumerService.OnTimer: models the intended flush, which keeps the receipts of a failed flush; as written they are dropped and the error escapes, as OnTimerAsWritten states.
- Consumer.ConsumerService.ProcessBatch: models the intended catch block, which re-buffers the snapshot; as written it raises a ReferenceError with the buffer empty, as ProcessBatchAsWritten states.
- campaign.controller.ts: the 409 reply for a unique-constraint error (lines 43-47) is not modelled. Campaign names carry no uniqueness constraint in the model. As in the routes, a body field sent as JSON `null` is treated like an absent one, and fields of other types are not modelled.
- JavaCampaigns: the `Integer` counters (Campaign.java:58, 61) are unbounded integers, so the 32-bit wrap-around of the increments at CampaignService.java:150-151 is not modelled.
- JavaCampaigns.CampaignService.CreateCampaign: a body id that names no stored campaign is modelled as an insert under a new id; newer Hibernate versions reject such a merge instead.
- JavaCampaigns: bean validation, `getAllCampaigns` and `getCampaignStats` are left out. The statistics depend on a JPQL average delivery time.
- JavaCampaigns: the Kafka template is left out. Customer.java is not part of this model; the customer fields used are those CampaignService.java reads.
- Segments: deleting a segment that campaigns still reference is left to the database's foreign-key behaviour, which is not modelled.
- Text: lower-casing covers ASCII letters only. JavaScript's Unicode case mapping and whitespace beyond the listed characters are not modelled.
- AiText: the Ollama and Unsplash calls are left out, as are the retry loop, image URLs, the percentage-formatted fallback summary and rule generation (aiService.ts:19-118, 232-303). A failed call is a `None` reply.
- Paging: `parseInt` is not modelled. A limit that is not a positive integer and a page that is not an integer are outside the model. Any integer page is covered; for a negative page `slice` counts from the end (SliceFromEnd, PageNegative).
- Paging: JSON numbers are reals, so JavaScript number formatting and NaN are not modelled.
- RuleTree: the drag-and-drop wiring, the preview and save handlers, and `Number()` of non-numeric input (NaN) are left out.
- RouteGuard: markup and class names are left out. Only the redirect, render and active-tab decisions are modelled.
- Realtime: the EventSource object and the text of parser errors are left out. The data cell starts as JSON `null` and an `update` message without `data` stores `undefined` (`None`); both are no data for the dashboard.

## Findings

| source | as written | input that shows it | evidently intended | confidence | as-written member | corrected member |
|---|---|---|---|---|---|---|
| backend/src/services/consumer.service.ts:207 | the catch block names `batch`, declared with `const` inside the `try` block (line 183); it is out of scope, so the line fails with a ReferenceError, or does not compile, and the buffer is never restored | a flush of receipts A, B, C whose transaction fails: the snapshot was already cleared from the buffer, so all three are lost | put the snapshot back after the receipts that arrived meanwhile | not executed; high | Consumer.RequeueAsWritten, Consumer.ConsumerService.ProcessBatchAsWritten | Consumer.Requeue, Consumer.ConsumerService.ProcessBatch |
| frontend/src/app/components/ClientLayout.tsx:13 | `isAuthenticated` is read from the auth context, whose value (frontend/src/app/context/AuthContext.tsx:126) has no such property, so it is always undefined | a signed-in user opening /dashboard is redirected to /auth/login and shown nothing | treat a user as authenticated when the context holds one | not executed; high | RouteGuard.GuardAsWritten | RouteGuard.Guard |
