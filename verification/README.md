# LexiconEcho consultation pipeline in Dafny

This project models the consultation pipeline of LexiconEcho, an "executive
suite" of model-backed advisors, and proves properties of that model. A
query goes to the CEO advisor, which names further executives to consult.
The endpoint calls each of them in turn, then asks for a final synthesis.
Every step is streamed to the browser as a server-sent event.

Every outbound call passes through three pieces:

- an admission gate: a token bucket plus a cap on requests in flight;
- a retry policy with exponential backoff;
- a process-wide usage ledger that the final event drains into a cost report.

Two browser components are modelled:

- the executive suite view opens its own event source on the endpoint and keeps the latest status map and progress messages;
- the home page has a stream reader that keeps contributors, a cost summary and an error. The page hands it to the suite view as `onConsult`, but the view never calls it, so as written it never runs.

A response validator and a duplicate scan check the integrated response.

The modules follow the source files:

| module | file | models |
|---|---|---|
| `Basics` | `basics.dfy` | `Option`, a JavaScript error value, and the string operations the code uses (`indexOf`, `lastIndexOf`, `split`, `replace`) |
| `Executives` | `executives.dfy` | the ten executive titles and the two agent types |
| `RateLimiter` | `rate_limiter.dfy` | the admission gate |
| `CostEstimator` | `cost_estimator.dfy` | the per-model rate table |
| `BudgetTracker` | `budget_tracker.dfy` | the daily spending tracker |
| `CostLedger` | `cost_ledger.dfy` | the usage ledger and its report |
| `Retry` | `retry.dfy` | `retryWithBackoff` |
| `Service` | `service.dfy` | the model-calling methods: gate, retries, usage recording, reply parsing |
| `ResponseValidator` | `validator.dfy` | validation and the duplicate scan |
| `Consult` | `consult.dfy` | the consultation endpoint's state machine and event stream |
| `StreamClient` | `stream_client.dfy` | the home page's stream reader, which nothing calls as written |
| `SuiteView` | `suite_view.dfy` | the executive suite's event listener |

Everything outside the program is an explicit parameter. This covers:

- clock readings;
- day-of-month;
- the completion endpoint's behaviour per request;
- whether `JSON.parse` accepts a text;
- how the browser decodes a payload.

So every operation is a pure function. Token counts are `nat`; costs and token rates are `real`, which is exact.

Some behaviours of the code are not what its names and comments suggest; the
model reproduces them as written:

- The marketing method does not go through the retry policy.
- The marketing method, the technology method and the synthesis never give their gate slot back.
- The suite view never calls the `onConsult` it is given, so the home page's stream reader never runs. `StreamClient` models that reader as it would behave for a caller that invoked it.
- The browser's event source opens the endpoint with GET, which the endpoint refuses with 405. The only handler that then runs is `onerror`, which appends a message and leaves the view consulting.
- The suite view never ends a consultation on an `error` event.

## Model

| member | source | states |
|---|---|---|
| CostEstimator.EstimateCost | src/utils/CostEstimator.ts:13-21 | An unknown model costs nothing, a cost is never negative, and zero tokens cost nothing for every model |
| CostEstimator.Gpt4Pricing | src/utils/CostEstimator.ts:3-20 | gpt-4 charges 0.03 per thousand prompt tokens plus 0.06 per thousand completion tokens |
| CostEstimator.Gpt35TurboPricing | src/utils/CostEstimator.ts:7-20 | gpt-3.5-turbo charges 0.0015 per thousand prompt tokens plus 0.002 per thousand completion tokens |
| CostEstimator.CostMonotone | src/utils/CostEstimator.ts:17-20 | More prompt or completion tokens never cost less |
| CostEstimator.CostAdditive | src/utils/CostEstimator.ts:17-20 | Charging two calls separately costs the same as charging their combined token counts once |
| BudgetTracker.Initial | src/utils/BudgetTracker.ts:2-3 | The tracker starts with spending allowed, and the first cost tracked, on whatever date, is the whole usage |
| BudgetTracker.TrackUsage | src/utils/BudgetTracker.ts:6-23 | A new day-of-month resets usage to the new cost and moves the reset date; the same day adds the cost. The warning fires exactly when usage exceeds 4.00, and no cost is ever refused |
| BudgetTracker.CheckBudget | src/utils/BudgetTracker.ts:25-27 | Spending is allowed exactly while usage is below 5.00 |
| BudgetTracker.SameDayNextMonthDoesNotReset | src/utils/BudgetTracker.ts:8-14 | Only the day-of-month is compared: the same date number a month later keeps accumulating |
| BudgetTracker.SameDayUsageIsSum | src/utils/BudgetTracker.ts:6-14 | Within one day-of-month, usage is the earlier usage plus the sum of every tracked cost |
| BudgetTracker.NewDayForgetsEarlierUsage | src/utils/BudgetTracker.ts:8-14 | On a new day-of-month only that day's costs count, and the reset date is the new date |
| BudgetTracker.ExhaustionIsWarned | src/utils/BudgetTracker.ts:19-27 | A call that exhausts the budget has always logged the near-limit warning |
| RateLimiter.New | src/utils/rateLimiter.ts:13-19 | A fresh gate has a full bucket, nothing in flight, and the configured rate and cap |
| RateLimiter.Refill | src/utils/rateLimiter.ts:21-31 | A refill never fills past `tokensPerMinute`. With a clock that has not run backwards it never loses tokens. It touches nothing but tokens and the refill time |
| RateLimiter.Acquire | src/utils/rateLimiter.ts:33-41 | Taking a token on an open gate removes exactly one token and adds exactly one request in flight, staying within the cap and above zero tokens |
| RateLimiter.Release | src/utils/rateLimiter.ts:43-45 | Release lowers the in-flight count by exactly one and changes nothing else |
| RateLimiter.WaitForToken | src/utils/rateLimiter.ts:33-41 | An open gate admits at once. Any admission adds exactly one request in flight and leaves the configuration unchanged |
| RateLimiter.SaturatedGateNeverAdmits | src/utils/rateLimiter.ts:34-37 | A gate whose in-flight count has reached the cap never admits, whatever the clock does, since nothing in the wait frees a slot |
| RateLimiter.WaitConsumesOneToken | src/utils/rateLimiter.ts:33-41 | A wait that ends does so at a poll where the refilled gate is open, and then takes one token from that gate |
| RateLimiter.NewSatisfiesInv | src/utils/rateLimiter.ts:13-19 | A fresh gate satisfies the invariant: in-flight count within the cap, and a bucket between zero and full |
| RateLimiter.StepPreservesInv | src/utils/rateLimiter.ts:21-45 | Every legal step (refill, take on an open gate, give back an outstanding take) keeps the invariant and never changes the rate or the cap |
| RateLimiter.RunPreservesInv | src/utils/rateLimiter.ts:21-45 | Any legal run of steps keeps the invariant, the rate and the cap |
| RateLimiter.UnmatchedReleaseGoesNegative | src/utils/rateLimiter.ts:43-45 | Release has no floor: releasing a fresh gate leaves its in-flight count at -1 |
| CostLedger.TrackUsage | src/utils/ConversationCostTracker.ts:13-15 | Tracking appends exactly the given event at the end and keeps every earlier one |
| CostLedger.Summary | src/utils/ConversationCostTracker.ts:31-38 | The breakdown's keys are exactly the agent labels recorded |
| CostLedger.AddEvent | src/utils/ConversationCostTracker.ts:31-44 | An event adds its agent's key if absent and changes no other entry. A new agent's entry takes the event's model and counts; a known agent keeps its model and accumulates the counts and the cost |
| CostLedger.AddEventKeepsBreakdown | src/utils/ConversationCostTracker.ts:31-44 | One more event keeps the breakdown exact. Each entry has the model of its agent's first event and sums over exactly that agent's events |
| CostLedger.FoldTotals | src/utils/ConversationCostTracker.ts:25-29 | The running totals equal the sums of the prompt, completion and total token fields and of the costs |
| CostLedger.FoldIsSummary | src/utils/ConversationCostTracker.ts:25-45 | The event-by-event accumulation equals the reference summary defined by sums and per-agent filters |
| CostLedger.GenerateReport | src/utils/ConversationCostTracker.ts:17-60 | The report's totals are the sums over every event and its breakdown is exact per agent. The ledger is left empty |
| CostLedger.EmptySummary | src/utils/ConversationCostTracker.ts:17-59 | The report of an empty ledger, as a second drain sees it, is all zeros with no breakdown |
| CostLedger.RepeatedAgentAccumulates | src/utils/ConversationCostTracker.ts:31-44 | A repeated agent accumulates tokens and cost rather than overwriting and keeps its first model; another agent gets its own entry |
| CostLedger.AgentOrder | src/utils/ConversationCostTracker.ts:31-38 | The breakdown's keys, in the order their agents first appear, are exactly the recorded agents |
| CostLedger.AgentOrderDistinct | src/utils/ConversationCostTracker.ts:31-38 | Each agent appears once among the breakdown's keys |
| CostLedger.BreakdownSumsToTotal | src/utils/ConversationCostTracker.ts:25-54 | The per-agent token counts add up to the report's total tokens |
| Retry.Classify | src/services/OpenAIService.ts:50-67 | A retry happens exactly for status 429 or 503 below `maxRetries`, after `delayMs * backoffFactor^retryCount`. Otherwise the error surfaces, replaced by the billing error when its code is `insufficient_quota` |
| Retry.RetryWithBackoff | src/services/OpenAIService.ts:44-69 | A first success returns with no delay. Every retried invocation failed transiently, the k-th delay is the backoff for count retryCount+k, and retries never pass `maxRetries`. The outcome is the policy's reading of the last invocation |
| Retry.DelaysNondecreasing | src/services/OpenAIService.ts:54-58 | With a backoff factor of at least one, the delays of a call never shrink |
| Retry.ConfiguredSchedule | src/services/OpenAIService.ts:33-58 | With the configured policy a call sleeps at most three times, and its delays are a prefix of 1000, 2000, 4000 ms |
| Retry.TransientThenSuccess | src/services/OpenAIService.ts:48-58 | n transient failures (n within the retry budget) and then a success return that success after exactly n delays |
| Retry.ExhaustedRethrowsLast | src/services/OpenAIService.ts:50-68 | When every invocation fails transiently without the quota code, the last invocation's error is rethrown unchanged after all remaining retries |
| Retry.QuotaIsFatal | src/services/OpenAIService.ts:63-65 | A quota failure that is not retried surfaces as the billing error at once, without a delay |
| Retry.OtherErrorsRethrown | src/services/OpenAIService.ts:50-67 | Any other failure is rethrown unchanged, without a delay |
| Retry.RateLimitCheckedBeforeQuota | src/services/OpenAIService.ts:53-64 | A 429 that also carries the quota code is retried, and a following success is returned after one 1000 ms delay |
| Service.Cost | src/services/OpenAIService.ts:95-96 | The estimated cost is never negative, and zero when the completion has no usage block |
| Service.Recorded | src/services/OpenAIService.ts:95-108 | A request writes a ledger event exactly when its completion carried usage. There is at most one event, labelled with the method's agent, with its total tokens and estimated cost |
| Service.Invoke | src/services/OpenAIService.ts:75-125 | An endpoint error propagates unchanged. A returned reply is non-empty content whose (cleaned) text parses. An empty or unparsable reply raises an error with no status and no code, which is never retried |
| Service.Run | src/services/OpenAIService.ts:71-182 | The marketing method makes one request. The others go through the retry policy: at most three delays, the k-th being the configured backoff for k retries, every delayed request failed transiently, and the outcome is settled from the last request |
| Service.GateBalance | src/services/OpenAIService.ts:71-182 | A finished call leaves the in-flight count as it found it when the method releases, and one higher when it does not, on success and on failure alike |
| Service.SaturatedGateStalls | src/services/OpenAIService.ts:72 | A call on a gate at its cap never gets past the wait |
| Service.TransientRequestsRecordNothing | src/services/OpenAIService.ts:75-108 | Requests that fail transiently write nothing to the ledger |
| Service.Perform | src/services/OpenAIService.ts:71-182 | A call stalls exactly when the gate never admits it. A finished call has the outcome and delays of its requests, and wrote at most one ledger event: the one of its final request, written before the content is checked |
| Service.EmptyReplyIsCharged | src/services/OpenAIService.ts:95-113 | A completion with usage but no content is charged to the method's agent, and the call still fails with the empty-reply error |
| Service.MarketingIsNotRetried | src/services/OpenAIService.ts:136-182 | A marketing call's endpoint error reaches the caller unchanged, with no delay and no quota translation |
| Service.SuccessfulReply | src/services/OpenAIService.ts:110-124 | A reply that parses is returned as parsed, with the usage object for the methods that attach one |
| Service.BraceSliceFrames | src/services/OpenAIService.ts:619-623 | When the first `{` precedes the last `}`, the cleaned text is exactly the stretch between them, opening and closing with a brace |
| Service.BraceSliceCases | src/services/OpenAIService.ts:619-623 | Without both braces the text is unchanged; when every `}` precedes every `{` nothing is left |
| Service.BraceSliceKeepsBareObject | src/services/OpenAIService.ts:619-625 | A reply that is already a bare object is parsed as it is |
| Service.BraceSliceIdempotent | src/services/OpenAIService.ts:619-623 | Cleaning twice is cleaning once |
| Service.SynthesisChargedApart | src/services/OpenAIService.ts:561-568 | The synthesis is charged under its own label, so a CEO charge and a synthesis charge make two breakdown entries |
| Executives.FromTitle | src/types/ExecutiveSuite.ts:1-11 | A string reads back as an executive only when it is that executive's title |
| Executives.TitleRoundTrip | src/types/ExecutiveSuite.ts:1-11 | Every title reads back as its own executive |
| Executives.TitleInjective | src/types/ExecutiveSuite.ts:1-11 | Distinct executives have distinct titles |
| ResponseValidator.Conclude | src/services/ResponseValidator.ts:25-29 | Validation passes exactly when no message was collected, and otherwise fails carrying every message |
| ResponseValidator.Validate | src/services/ResponseValidator.ts:13-30 | The guarded validator never throws, and passes exactly when the three groups together collect no message |
| ResponseValidator.ValidateAsWritten | src/services/ResponseValidator.ts:13-134 | The code as written throws when the business check reads an undefined field or a `null` takeaway list, or when a marketing strategy lacks `metrics`. A response the required-field check accepts, with a non-null takeaway list and metrics wherever there is a strategy, does not throw. Whenever it does not throw, it reaches the guarded validator's verdict |
| ResponseValidator.RequiredFieldErrors | src/services/ResponseValidator.ts:32-65 | The required-field check is silent exactly when every required field is defined and, given an action plan, all three of its timeframes are present |
| ResponseValidator.DataTypeErrorsAsWritten | src/services/ResponseValidator.ts:67-100 | The type check throws exactly when a marketing strategy has no `metrics`; otherwise it collects the guarded check's messages |
| ResponseValidator.PlanEmptyAsWritten | src/services/ResponseValidator.ts:118-121 | The empty-plan test throws on an undefined `immediate` bucket and never throws when all three buckets are present; when it does not throw, it agrees with the guarded test |
| ResponseValidator.BusinessErrorsAsWritten | src/services/ResponseValidator.ts:102-134 | The business check throws when the takeaways are undefined or `null`, or the direction, plan or agent list is undefined. It does not throw when all of them and the three buckets are present, and then it collects the guarded check's messages |
| ResponseValidator.NaNConfidencePasses | src/services/ResponseValidator.ts:69-105 | A `NaN` confidence is a number and fails both comparisons, so both validators judge it exactly as a confidence of one half |
| ResponseValidator.NullTakeawaysThrow | src/services/ResponseValidator.ts:79-111 | A `null` takeaway list is not reported missing; the type check reports it, and then reading its `length` throws as written |
| ResponseValidator.EmptyTextTakeawaysReportedTwice | src/services/ResponseValidator.ts:79-111 | An empty string as the takeaway list is reported both as not an array and as having no takeaway, by both validators |
| ResponseValidator.MissingPlanThrows | src/services/ResponseValidator.ts:102-121 | A response without an action plan makes the code as written throw, losing the collected messages. The guarded validator reports the missing field |
| ResponseValidator.NoPlanThrows | src/services/ResponseValidator.ts:118-119 | A concrete response lacking only its action plan throws as written and is reported as missing that field when guarded |
| ResponseValidator.MissingFieldReported | src/services/ResponseValidator.ts:36-52 | Every undefined required field gets its "Missing required field" message |
| ResponseValidator.RequiredGroupMatches | src/services/ResponseValidator.ts:32-65 | The required-field group reports exactly the broken field and timeframe rules, in table order |
| ResponseValidator.TypeGroupMatches | src/services/ResponseValidator.ts:67-100 | The type group reports exactly the broken type and range rules, in table order |
| ResponseValidator.BusinessGroupMatches | src/services/ResponseValidator.ts:102-134 | The business group reports exactly the broken business rules, in table order |
| ResponseValidator.ValidateMatchesRules | src/services/ResponseValidator.ts:13-30 | The collected messages are exactly those of the broken rules in table order, and validation passes exactly when there are none |
| ResponseValidator.ValidIffNoRuleBroken | src/services/ResponseValidator.ts:13-134 | Validation passes if and only if no rule is broken. Since no group short-circuits, every broken rule's message is reported |
| ResponseValidator.NegativeConfidenceReportedTwice | src/services/ResponseValidator.ts:69-106 | A negative confidence produces both the range message and the low-confidence message |
| ResponseValidator.IndexOfItem | src/services/ResponseValidator.ts:156 | `indexOf` is -1 exactly for an absent item, and otherwise a position holding the item |
| ResponseValidator.IndexOfItemFirst | src/services/ResponseValidator.ts:156 | `indexOf` finds the first occurrence |
| ResponseValidator.RepeatAt | src/services/ResponseValidator.ts:156 | A position is kept by the filter exactly when its value already occurred earlier |
| ResponseValidator.DuplicatesAreRepeats | src/services/ResponseValidator.ts:155-157 | `findDuplicates` equals the reference list of values that already occurred earlier, in order |
| ResponseValidator.DuplicateCount | src/services/ResponseValidator.ts:155-157 | A value occurring k times is reported k-1 times |
| ResponseValidator.NoDuplicatesIff | src/services/ResponseValidator.ts:155-157 | The scan finds nothing exactly when the list has no repeated value |
| ResponseValidator.CheckForDuplicates | src/services/ResponseValidator.ts:137-153 | The scan completes exactly when both lists are arrays, with at most two warnings |
| ResponseValidator.DuplicateWarnings | src/services/ResponseValidator.ts:137-153 | On a valid response the scan completes, and warns about nothing exactly when takeaways and risks are both repeat-free |
| Consult.AddPending | src/pages/api/consult.ts:123-129 | The keys after entering the list are the earlier keys followed by the new titles in first-listed order, unique when they were. Every entry under a listed title is the pending entry, and every entry under an unlisted title is kept |
| Consult.NewTitlesMembers | src/pages/api/consult.ts:123-129 | The keys the list adds are exactly its titles that were not keys before |
| Consult.Activate | src/pages/api/consult.ts:135-137 | Before a call, exactly the entries under the called title are active, CEO included in the reset; keys and other fields are kept |
| Consult.MarkResponded | src/pages/api/consult.ts:152-154 | After a reply the executive has responded and is inactive; every other entry is unchanged |
| Consult.MarkFailed | src/pages/api/consult.ts:23-40 | A failed executive is marked in error with the message, inactive and not responded; every other entry is unchanged |
| Consult.ErrorMessage | src/pages/api/consult.ts:205 | The `error` event carries the error's message, or "Internal server error" when it is empty |
| Consult.Fail | src/pages/api/consult.ts:166-169 | A failed call marks its executive failed, emits one status event and keeps the gate, ledger and results |
| Consult.Succeed | src/pages/api/consult.ts:143-162 | A truthy reply is appended to the results, the executive marked responded, and one response event emitted |
| Consult.AfterCall | src/pages/api/consult.ts:141-169 | The loop stops exactly when the call stalls at the gate. Otherwise the call's charges are appended to the ledger, and the state moves to a failure, a kept reply, or nothing for a falsy reply |
| Consult.ConsultOne | src/pages/api/consult.ts:132-170 | Each iteration first emits the status map with that executive active. A stuck iteration stalled at a real service call and kept nothing |
| Consult.ConsultFrom | src/pages/api/consult.ts:132-170 | The loop only extends the event stream and the ledger, keeps the stream's events progressive, and keeps results in list order |
| Consult.Reopen | src/pages/api/consult.ts:172-175 | After the loop the CEO is active again and one status event is emitted; nothing else changes |
| Consult.Close | src/pages/api/consult.ts:177-207 | The request hangs exactly when the synthesis call stalled, adding no event and leaving the ledger untouched. Otherwise exactly one closing event follows: `error` comes from a failed call, carries its message and keeps every charge in the ledger, while `final` comes from an answer and carries the results, the CEO answer, the map with the CEO inactive, the synthesis and a report of everything charged, leaving the ledger empty |
| Consult.Handle | src/pages/api/consult.ts:82-88 | Only POST is served; every other method gets 405 and no events. A POST whose setup throws (a missing body, say) writes one `error` event with that error's message and touches no ledger entry |
| Consult.StreamShape | src/pages/api/consult.ts:86-208 | Every POST stream either is a lone `error` event from a failed setup, or starts with the CEO-only status; it has only status/response events before at most one closing event. An error or hang leaves all charges in the ledger; `final` drains it into a report covering them. The final consultations keep list order |
| Consult.CeoCall | src/pages/api/consult.ts:88-104 | The CEO call runs on the request's fresh gate, which is open, so it always finishes, takes one token and has the outcome of the CEO's requests |
| Consult.AfterCeo | src/pages/api/consult.ts:99-116 | The stream opens with the CEO-only status. A CEO call stuck at the gate hangs there; a failed one is followed by one `error` event with its charges in the ledger; an answer is the second event, with the CEO responded and inactive |
| Consult.Answered | src/pages/api/consult.ts:110-129 | After the CEO's answer: a falsy list is read as empty, so the next event reactivates the CEO; a list that is not an array makes `forEach` throw, so the stream ends with that `TypeError`'s message and the ledger keeps the CEO's charges |
| Consult.AfterLoop | src/pages/api/consult.ts:170-177 | A loop stuck at the gate hangs the request with nothing more written; a loop that went on is followed by the CEO's reactivation |
| Consult.Synthesize | src/pages/api/consult.ts:172-207 | The synthesis first reactivates the CEO. It hangs exactly when its call never gets past the gate; otherwise one closing event follows: `error` keeps its charges in the ledger, and `final` carries the results, the CEO answer, the map with the CEO inactive again, the synthesis and a report of every charge, leaving the ledger empty |
| Consult.NonArrayListEndsStream | src/pages/api/consult.ts:118-123 | A CEO list that is neither falsy nor an array yields the initial status, the CEO's answer and the `forEach` error event, with the CEO's charges left in the ledger |
| Consult.CeoFailureEndsStream | src/pages/api/consult.ts:201-207 | A failed CEO call yields exactly the initial status and one `error` event, with its charge left in the ledger |
| Consult.CeoAnswerIsSecond | src/pages/api/consult.ts:104-118 | A CEO answer is the second event with the CEO responded and inactive. With a falsy list, the next event reactivates the CEO for the synthesis |
| Consult.LoopMapsHoldTheList | src/pages/api/consult.ts:118-137 | Every map the loop works on has unique keys and holds every executive to consult |
| Consult.ActivationIsExclusive | src/pages/api/consult.ts:135-137 | Before each call exactly one entry is active: the called executive's |
| Consult.DispatchTable | src/pages/api/consult.ts:50-70 | Six titles call a service method; the financial and operations titles hit methods the service lacks; the CEO, human resources and every non-title return null |
| Consult.UnimplementedStaysActive | src/pages/api/consult.ts:141-165 | A title without an implementation keeps nothing and stays active, with only the opening status event |
| Consult.MissingMethodIsIsolated | src/pages/api/consult.ts:23-40 | A title whose method is missing is marked with "Implementation not available", without a call, and the loop goes on |
| Consult.CallFailureIsIsolated | src/pages/api/consult.ts:166-169 | A failed call is isolated to its executive: marked failed with the error's message, a status event sent, charges kept, the loop going on |
| Consult.ReplyIsKept | src/pages/api/consult.ts:143-162 | A truthy reply is kept under its title, the executive marked responded, and a response event sent |
| Consult.LeakingStep | src/services/OpenAIService.ts:184-249 | A call to a method that never releases comes back holding one more gate slot and one token fewer |
| Consult.LeaksFrom | src/pages/api/consult.ts:132-170 | A run of calls that never release, on a gate with a slot and a token for each, goes on and holds one more slot per call |
| Consult.ThreeLeaksFillTheGate | src/pages/api/consult.ts:132-170 | Marketing, technology and marketing again, on a gate with every slot free, fill all three slots |
| Consult.SaturatedSynthesisHangs | src/services/OpenAIService.ts:503-504 | A synthesis on a saturated gate never starts, so the request hangs |
| Consult.ThreeLeaksHangTheRequest | src/pages/api/consult.ts:132-181 | A CEO that names marketing, technology and marketing again hangs the request: no closing event is ever written |
| StreamClient.NonEmpty | src/pages/index.tsx:61 | The filter keeps exactly the non-empty pieces, in order |
| StreamClient.FrameRoundTrip | src/pages/index.tsx:60-66 | Reading a body of `data: ` frames gives back exactly the payloads written, in order, when none holds a blank line or ends in a line break |
| StreamClient.TrailingBreakIsLost | src/pages/index.tsx:61-66 | Without that condition the round trip fails: a payload ending in a line break loses it |
| StreamClient.Start | src/pages/index.tsx:25-33 | A consultation starts loading, with no error, no contributors and all four cost counters at zero; the last response stays on screen |
| StreamClient.AddIfAbsent | src/pages/index.tsx:75-77 | A contributor is appended only when absent |
| StreamClient.Apply | src/pages/index.tsx:69-95 | `response` adds its executive when present, `final` sets the response and (with a report) the summary, and `error` sets the message or "An error occurred". Other types change nothing |
| StreamClient.ParsedPrefix | src/pages/index.tsx:63-66 | The events applied are the decoded payloads up to the first one that does not parse |
| StreamClient.Consume | src/pages/index.tsx:63-98 | The page applies exactly that prefix, and throws exactly when some payload does not parse |
| StreamClient.HandleConsult | src/pages/index.tsx:48-54 | Loading always ends. A failed response shows its message or "Failed to get response"; a response without a body leaves the reset state |
| StreamClient.ContributorsFromStart | src/pages/index.tsx:74-77 | After any run of events, the contributors are the first occurrence of each responding executive |
| StreamClient.ContributorsInFirstSeenOrder | src/pages/index.tsx:74-77 | After a request, the contributors are duplicate-free, in first-answer order, and exactly the executives that answered |
| StreamClient.PageReadsTheStream | src/pages/index.tsx:56-95 | When the page decodes each payload back to the event the endpoint encoded, reading the body applies exactly the endpoint's events, in order, to the reset page |
| StreamClient.ProgressKeepsErrorAndSummary | src/pages/index.tsx:69-79 | Status and response events leave the error and the cost summary alone |
| StreamClient.StreamEndsOnThePage | src/pages/index.tsx:80-94 | After a `final` event the page shows no error and the report's four totals; after an `error` event it shows that message |
| SuiteView.TrimStart | src/interfaces/ExecutiveSuite.tsx:47 | Exactly the leading white space is removed |
| SuiteView.TrimEnd | src/interfaces/ExecutiveSuite.tsx:47 | Exactly the trailing white space is removed |
| SuiteView.BlankQuery | src/interfaces/ExecutiveSuite.tsx:47 | A query trims to nothing exactly when it is all white space |
| SuiteView.CanConsult | src/interfaces/ExecutiveSuite.tsx:236-238 | The button is enabled exactly when nothing is loading or consulting and the query has a non-space character. An enabled click finds the view not consulting and starts a consultation whose log, once the source opens, is the connection message alone |
| SuiteView.OnOpen | src/interfaces/ExecutiveSuite.tsx:78-81 | Opening the connection appends the connection message and changes nothing else |
| SuiteView.StartConsult | src/interfaces/ExecutiveSuite.tsx:45-54 | Reached only while not consulting, since the button is disabled then. A blank query changes nothing. Any other opens the source consulting, and the reset effect clears the map and the messages, opening message included, with the report and synthesis cleared too |
| SuiteView.Line | src/interfaces/ExecutiveSuite.tsx:109-122 | An entry reports a message exactly when its flags give it something to say |
| SuiteView.StatusPriority | src/interfaces/ExecutiveSuite.tsx:109-122 | Error outranks activity, activity outranks the rest, and a pending entry waits even when it has responded. An idle entry reports completion only once it has responded |
| SuiteView.StatusLines | src/interfaces/ExecutiveSuite.tsx:109-127 | One message per reporting entry |
| SuiteView.OnMessage | src/interfaces/ExecutiveSuite.tsx:84-178 | Empty data is ignored. An unparsable payload closes the source and ends consulting. A parsed one replaces the map when it carries one and closes only on `final`. Its messages are the map's status lines, then "Got response from" the executive for `response`; for `final`, the completion note, the synthesis note when there is one, with the report and synthesis taken when present; nothing more for any other type |
| SuiteView.Listen | src/interfaces/ExecutiveSuite.tsx:165-174 | A closed source delivers nothing more |
| SuiteView.LastSnapshotWins | src/interfaces/ExecutiveSuite.tsx:101-106 | While nothing closes the source, the view shows the last map received, whole |
| SuiteView.ErrorEventIgnored | src/interfaces/ExecutiveSuite.tsx:131-168 | An `error` event changes nothing: the source stays open and the view consulting |
| SuiteView.FinalOrParseErrorCloses | src/interfaces/ExecutiveSuite.tsx:135-174 | A `final` event or an unparsable payload closes the source and ends consulting for good |
| SuiteView.EndpointMapsNeverWait | src/interfaces/ExecutiveSuite.tsx:116-119 | The endpoint's maps never show "waiting". A pending executive reports nothing, and a failed one reports its error message |
| SuiteView.ViewAfterStream | src/interfaces/ExecutiveSuite.tsx:131-174 | After `final` the view is closed, not consulting, and shows the final map. After `error` it stays open and consulting |
| SuiteView.SourceRequestRefused | src/interfaces/ExecutiveSuite.tsx:63-74 | The event source's GET request is refused by the endpoint with 405 |
| SuiteView.OnError | src/interfaces/ExecutiveSuite.tsx:182-185 | A connection error appends "Connection error. Please try again." and changes nothing else: the source stays open in the view's state and the view keeps consulting |
| SuiteView.RefusedConsultationStaysConsulting | src/interfaces/ExecutiveSuite.tsx:182-185 | After an enabled click whose GET (the URL of lines 63-74) is refused with 405, the view shows the connection error alone, stays consulting, and the button stays disabled for every query |
| SuiteView.Shown | src/interfaces/ExecutiveSuite.tsx:249 | A card shows the map's entry for its title, or all flags false when there is none |
| SuiteView.Responded | src/interfaces/ExecutiveSuite.tsx:311-313 | The contributors passed on are exactly the titles whose entry has responded |

## Left out

- The OpenAI client, prompts and `JSON.parse`/`JSON.stringify` are foreign code. Each request's outcome is an oracle (`Completion`), whether a text parses is a predicate, and the browser's decoding of a payload is a function parameter.
- Timers and clocks (`setTimeout`, `Date.now`, `new Date()`): clock readings, the polls of the 100 ms wait and the day-of-month are parameters, and the one-second pause between executives is not modelled. ISO timestamps in status entries and events are left out, and so is the `toLocaleTimeString()` prefix the suite view puts before each progress message.
- Network I/O: `res.write` appends to an event sequence and `res.end` is the end of that sequence. `fetch` and `reader.read` deliver the whole body as one text, so a frame split across two network chunks is not modelled.
- The `!reader` early return is modelled as a missing body.
- `EventSource`'s own framing and reconnect logic are not modelled; the suite view receives the payloads as a sequence of strings. A response other than 200, such as the endpoint's 405, fails the connection without opening it; the model reads that as one call of `onerror` (`SuiteView.OnError`), with no `onopen` before it.
- React rendering, effect scheduling and the callbacks to the parent (`onContribute`, `handleContribute`) are left out. The reset effect of the suite view is applied right after `handleConsult`'s writes.
- Logging (`logger`, `console`, the log endpoint) is left out.
- Floating point: costs, rates and tokens-per-minute are exact `real`s, so no rounding is modelled.
- The agent orchestrator stub and the response integrator are not part of this model.
- Concurrency: each request builds its own gate, and one request's steps are modelled in sequence. The static ledger, though, is shared by the whole process, and concurrent requests interleave at every `await`: one request's final report can drain charges another request wrote. The model gives each request the ledger as it finds it and does not model that interleaving.
- The company context and query only shape the oracle replies; the prompts built from them are not modelled. `getCFOResponse` and `getCOOResponse`, which the service lacks, are modelled by the `TypeError` that calling them raises.
- Service.Run: every thrown value is modelled as an `Error` instance, so the retry policy's `instanceof Error` test always passes; thrown non-`Error` values are not modelled.
- CostEstimator.EstimateCost: the rate table is a plain object, so a model name such as `toString` or `constructor` finds an inherited property instead of `undefined` and yields `NaN`; the model treats every name outside the table as unknown, costing nothing.
- The validator's inputs are modelled by what the code distinguishes: a confidence is undefined, a number, `NaN` or another value (with what `<` coerces it to), and a list field is undefined, `null`, an array, a string or another value. Other exotic values (objects with a `length` property, getters) are not modelled.
- Consult.AddPending: titles are modelled as strings that are neither array indices such as "1" (which a plain object lists first, ascending, so the status map and every payload would put them before the chief executive) nor `__proto__` (whose assignment sets the prototype, so it never appears in a payload). List elements that are not strings are not modelled: their key is their string form, `key === execTitle` never holds for them, and that executive is never marked active.
- RateLimiter.WaitForToken: a wait that does not end within the given clock readings is reported as `None`, which the callers read as a request that never proceeds.

## Findings

| source | as written | input that shows it | evidently intended | confidence | as-written member | corrected member |
|---|---|---|---|---|---|---|
| src/services/ResponseValidator.ts:118-124 | `validateBusinessLogic` reads `masterActionPlan`'s buckets, `keyTakeaways.length`, `strategicDirection.length` and `contributingAgents.includes` without checking them, so a response missing any of them throws a `TypeError` and the messages already collected, including "Missing required field: masterActionPlan", are lost | a response with every field present except `masterActionPlan` | report every violation, the missing field included, and never throw on a missing field | not executed | ResponseValidator.NoPlanThrows | ResponseValidator.ValidIffNoRuleBroken |

Other behaviours the proofs bring out, modelled as written:

- The marketing method, the technology method and the synthesis never release their gate slot. Three such calls in one request fill the gate, and the synthesis then waits forever (`Consult.ThreeLeaksHangTheRequest`).
- The process-wide ledger is drained only by a `final` event, so a request that ends in an error leaves its charges to the next report (`Consult.StreamShape`).
- A `NaN` confidence passes both the range check and the threshold (`ResponseValidator.NaNConfidencePasses`).
- A CEO list that is truthy but not an array makes `forEach` throw after the CEO's answer was streamed, so the stream ends with that `TypeError`'s message (`Consult.NonArrayListEndsStream`).
- The suite view's event source issues GET, which the endpoint answers with 405 (`SuiteView.SourceRequestRefused`). The view then shows only the connection error and stays consulting with its button disabled (`SuiteView.RefusedConsultationStaysConsulting`).
- The suite view never calls the `onConsult` it receives, so the home page's stream reader (`StreamClient`) never runs.
- An `error` event never ends the suite view's consultation (`SuiteView.ViewAfterStream`).
- The suite view's "waiting to be consulted" message can never appear for the endpoint's maps (`SuiteView.EndpointMapsNeverWait`).
- The home page's framing loses a payload's trailing line break (`StreamClient.TrailingBreakIsLost`). `JSON.stringify` output never contains a raw line break, so the endpoint's own payloads frame cleanly.
