# LImExpress gateway: a verified model

LImExpress is an LLM gateway. A request is authenticated by a virtual key, admitted if its user's and team's budgets
have something left, proxied to the provider as a server-sent event stream, and charged afterwards for the tokens the
stream reported. This project models those parts in Dafny 4.11 and proves what they guarantee over whole runs.

`dafny verify dfyconfig.toml` checks everything.

## What is modelled

- **The budget engine** (`Engine`, on `Tables`, `Policies`, `Keys`, `Clock`, `Admission`, `Pricing`). A state machine whose
  actions are single SQL statements, clock ticks and handler decisions. Any number of requests interleave in any order, and
  the clock may move between any two steps. Each statement takes its window from the instant it runs at, and each may
  fail: a failed policy lookup or usage read lets the request pass, a failed accounting write is dropped. A run is any
  sequence of actions; an action that is not due does nothing. A request stays in the state for ever, with where each of
  its writes landed, so the requests are the ledger of charges.
- **Whole-run results** about it: `Overshoot` (how far concurrency can exceed a budget) and `Tightness` (the bound is
  attained), `Ledger` (aggregate tables against the ledger, hours against days), `Attribution` (events against requests and
  keys, permanence of revocation), and `Patience` (the machine's budget steps amount to one pass of the middleware of
  `Admission`, and what a client that honours Retry-After sees in a run).
- **The SSE path.** `Sse` is the client's parser of the WHATWG HTML standard, sections 9.2.5 and 9.2.6. `Forwarding` is the
  rewriting that `streamSSE` does and what the client parses from the result. `Meter` is the imperative loop with its
  scanner, writer and usage object. `Metering` relates the loop's usage to the parsed events, and `Disconnect` says what a
  client that leaves early receives and pays. `Faithful`, `Agreement` and `Switching` say exactly when forwarding keeps the
  events, when the loop's usage is that of the events, and when a cut never costs more, for all streams; `MergedEvents`,
  `Sticky` and `SplitData` hold streams on which they go wrong.
- **The bootstrap transaction** (`Bootstrap`): concurrent logins under one advisory lock, and the handler run alone.
- **The database object** (`Store`): the statements and middleware as methods that update fields in place, each proved
  equal to a function. The statements, authentication and accounting use the machine's own functions. `BudgetAdmission`,
  with its two usage readers in every interleaving, equals `Admission.Admit`, which `Patience` relates to the machine.
- **Reports, `itoa`, UUIDs** (`Reports`, `Itoa`, `Uuid`).
- **The definitions in raw terms.** What the definitions above compute is also stated without them, in columns, fields, lines
  and numbers: `Charging` (what one request adds to the tables), `Ledger.ColumnsAgreeWithLedger`, `Reports.ReportsInColumns`,
  `Admission.DenialNamesItsWindow`, `Ordinary` and the line laws of `Meter` (ordinary streams), `StandardFields` (the client's
  parser, rule by rule), and others in the table.

Units: nanoseconds since the Unix epoch, 1e-8 USD, tokens. A stream is a string of Unicode scalar values, the decoded form
of its UTF-8. Parameters stand for what the code cannot decide: which statements succeed, when they run, what JSON decoding
returns, after how many lines a client is gone, fresh ids.

The stages are chained in the order auth, budget, proxy, accounting, as the middleware comments and
`docs/TEST_PLAN.md` describe it; `cmd/gateway/main.go` does not mount that chain.

## Where the code does not do what one might expect

- `itoa` of the smallest int64 is a lone minus sign (`Itoa.PrintingRoundTrips`: every other value round-trips).
- A limit of zero or less denies, although each denial promises a time to retry: from the next day on always, and before
  that unless a recorded amount is negative, which the int32 counts of a provider do not exclude
  (`Admission.LateAttemptsPassIffPositive`, `Admission.NegativeCountOpensClosedLimit`).
- The extra line feed `streamSSE` writes dispatches an event that the upstream left incomplete
  (`MergedEvents.OpenEventIsDispatched`), and a carriage return right before a CRLF loses a blank line, each one exactly one
  (`Forwarding.ForwardedLines`), which can merge two events into one (`MergedEvents.DoubledCrMergesEvents`).
  `Faithful.ForwardingIsFaithfulIff` is the exact condition for events.
- The loop's event type survives the blank line that resets the client's, so a payload without its own `event:` line is
  metered under the previous type (`Sticky.StickyTypeMismeters`). The loop also decodes the data lines of one event one by
  one, where the client joins them (`SplitData.SplitDataIsNotMetered`). `Agreement.StreamUsageAgreesIff` is the exact condition
  for the final usage, `Metering.ReportsAgreeIffTypesDo` the one line by line.
- A stream that goes over to a cheaper model can cost less in full than when cut (`Switching.SwitchingDownCostsLess`;
  `Switching.CutsCostNoMoreIffLastCostsMost` is the exact condition).
- A request of more than 666,666,666 tokens can cost too much for `usage_events.cost_usd` (`Pricing.DefaultCostsFit`).

## Model

| member | source | states |
|---|---|---|
| Overshoot.BoundedOvershoot | internal/budget/admission.go:142-265 | In every interleaving, if a party's requests meet no read error, resolve to limits of at most L, charge 0 to C each and are at most K in flight (from the usage read that passed until the aggregate write has ended), no hour or day window ever records more than L - 1 + K*C for that user or team, in cost or tokens, across rollovers, stale reads and failed writes |
| Tightness.BoundIsAttained | internal/gateway/accounting.go:38-53 | The bound cannot be improved: for every user or team, hour or day, cost or tokens, every L >= 1, every K (at least 1 unless L is 1) and every positive C there is a run meeting those conditions at every step that records exactly L - 1 + K*C |
| Overshoot.StepCases | internal/budget/admission.go:142-265 | One step of one request either raises neither the current window nor the number in flight, or is a read that saw less than the limit, or records one charge while a request stops being in flight |
| Overshoot.WriterIsInFlight | internal/budget/admission.go:201-262 | A request that reaches its aggregate write with a limit set had a reading below that limit |
| Engine.RunKeepsInv | internal/gateway/accounting.go:69-98 | In every reachable state requests are in consistent phases, tables have one row per key, no row lies in a future window, row starts are aligned, keys are unique |
| Steps.LookupStep | internal/budget/admission.go:126-140 | A failed policy lookup and one without a row let the request pass to its stream; otherwise the row's limits are what usage is read against |
| Steps.UserReadStep | internal/budget/admission.go:142-167 | The user's reader asks its hour, then its day, each once, of its own table at the present instant, and stops at a failed query |
| Steps.TeamReadStep | internal/budget/admission.go:169-191 | Likewise the team's reader |
| Steps.DecisionStep | internal/budget/admission.go:193-268 | The decision waits for the readers; a failed read lets the request pass whatever the limits; with all answers the limits decide, and a denial names its window and its seconds |
| Steps.EndedForGood | internal/budget/admission.go:201-262 | A refused request is never streamed or charged, and a finished one changes no more |
| Steps.StepsAreItsOwn | internal/gateway/accounting.go:69-98 | A request moves by its own actions only, and none changes whom it is for |
| Ledger.TablesAgreeWithLedger | internal/db/budget.sql.go:164-173 | For every condition on the key and every column, the sum over an aggregate table equals the sum over the requests whose upsert succeeded, in any interleaving |
| Ledger.RowsAreGroupSums | internal/db/budget.sql.go:200-209 | At most one row per (org, user, team or NULL, provider, model, window); it holds the group-by sums of the successful upserts and exists exactly when there is one |
| Ledger.ColumnsAgreeWithLedger | internal/db/budget.sql.go:164-209 | Column by column: the input, output, cost and count of the hour rows, and of the day rows, of one org, user, team, provider, model and window are the sums of what the requests of that org, user and team were charged for that provider and model in that window |
| Tables.WindowUsageInColumns | internal/db/budget.sql.go:54-145 | The four window-usage queries in columns: cost, and input plus output tokens, of the rows of one org and one user, or one org and one team, and one window start |
| Ledger.WindowQueriesSumTheLedger | internal/db/budget.sql.go:54-91 | The window-usage queries return direct sums over the ledger |
| Ledger.HoursNestInDays | internal/gateway/accounting.go:86-97 | In every reachable state, failures and midnight straddling included, the 24 hour totals of a UTC day differ from the day total by exactly the charges that landed in one and not in the other |
| Ledger.HoursNestInDaysWithoutFailures | internal/gateway/accounting.go:86-97 | If no request of the keys asked for fails a write or straddles midnight on this day (others may), day total = 24 hour totals minus exactly the charges between their two upserts; the request counts agree exactly when there are none |
| Ledger.SameDayIsExact | internal/gateway/accounting.go:86-97 | That condition is exact for each request: it breaks it exactly when it counts in the hours of the day and not in the day's row, or the other way round, without being between its two upserts |
| Attribution.EventsAgreeWithLedger | internal/db/usage.sql.go:183-187 | Every sum over usage_events equals the same sum over the requests whose insert succeeded: one event per charged request |
| Attribution.EventsAreAttributed | internal/middleware/auth.go:68-97 | Every usage event was inserted by one action of one request and carries that request's charge and the org, user, team and key id of a row that, at the earlier action that let this very request in, was active and had the presented hash, even if revoked since |
| Attribution.RevocationIsPermanent | internal/db/virtual_keys.sql.go:217-221 | Once a hash is revoked, no continuation of the run authenticates it, accepts a request with it or can create it again |
| Keys.RevokedNeverAuthenticates | internal/middleware/auth.go:65-78 | However the key table evolves, a revoked hash stays revoked and authenticates nobody |
| Keys.StatementsEvolve | internal/db/virtual_keys.sql.go:14-18 | Creating, revoking and touching keep ids and hashes unique, delete, rename and reactivate no row |
| Keys.CreatedKeyAuthenticates | internal/db/virtual_keys.sql.go:14-18 | A created key authenticates as the org, user, team and id it was created with; a taken id or hash creates nothing |
| Keys.TouchSetsOnlyLastUse | internal/db/virtual_keys.sql.go:233-237 | A use sets the time of last use of the named key of its org and nothing else |
| Keys.RevokeSetsOnlyStatus | internal/db/virtual_keys.sql.go:217-221 | A revocation sets status and time of revocation of the named key of its org and nothing else |
| Attribution.CreatedKeyLetsIn | internal/middleware/auth.go:58-97 | A new key's hash lets in one request, as the org, user, team and key id the key was created for, and writes no usage |
| Attribution.OnlyRevocationRevokes | internal/db/virtual_keys.sql.go:217-221 | An active key becomes revoked by a revocation of its id in its org and by no other step |
| Attribution.UseIsRecorded | internal/db/virtual_keys.sql.go:233-237 | The machine's use sets the time of last use of that id in that org to the present, and nothing else in the database |
| Attribution.RevocationIsRecorded | internal/db/virtual_keys.sql.go:217-221 | The machine's revocation takes place at the present and touches nothing but the key |
| Keys.RevocationStaysInItsOrg | internal/db/virtual_keys.sql.go:217-221 | Revoking revokes the named key of its own org and leaves every other row as it is |
| Keys.AuthenticatesIffActive | internal/middleware/auth.go:65-97 | A key's hash authenticates exactly while its row is active, as that row's identity |
| Patience.PatientClientIsServed | internal/budget/admission.go:30-40 | In every run, from any position on at which one identity's policy and the recorded usage of its user and team stay as they are, with positive limits and anything else interleaved, charges and policies of others included: a client whose next request arrives after the advertised seconds is denied at most twice, the second time only for the day, and a day denial is followed by admission. That no row lies in a future window is proved of reachable states, not assumed |
| Patience.MachineAdmitsLikeTheMiddleware | internal/budget/admission.go:113-268 | However its steps interleave with everything else while what its own queries see stays the same, a request ends up as one pass of the middleware with statements in order at instants of the run, query failures included |
| Admission.RetryAfterLeadsToAdmission | internal/budget/admission.go:30-40 | The same for three passes of the middleware over tables without future rows |
| Admission.NonPositiveLimitDeniesForever | internal/budget/admission.go:201-262 | A limit of zero or less denies every healthy attempt at any time if no recorded amount is negative, and from the next day on whatever the amounts |
| Admission.LateAttemptsPassIffPositive | internal/budget/admission.go:201-262 | On a later day than everything recorded a healthy attempt passes exactly when every limit its policy sets is positive, whatever the signs of the amounts |
| Admission.NegativeCountOpensClosedLimit | internal/budget/admission.go:241-262 | A row of -1 tokens lets a request through a token limit of zero on its own day |
| Admission.PatienceIsRewardedIffPositive | internal/budget/admission.go:201-262 | A patient client passes within three attempts if every limit set is positive; if not, no attempt passes unless recorded amounts are negative and it falls on the first attempt's day |
| Clock.RetryAfterSeconds | internal/budget/admission.go:29-40 | Between 1 and length + 1 seconds; waiting them ends strictly after the window and at most one second past its end |
| Clock.WindowsInNumbers | internal/budget/admission.go:29-40 | Windows and seconds in numbers: 3,600 and 86,400 seconds, 1 to 3601 and 1 to 86401 |
| Clock.WaitingLeavesTheWindow | internal/budget/admission.go:29-40 | Waiting that long leads into a strictly later window of that kind, and for a day also into a later hour |
| Clock.HourInsideDay | internal/db/budget.sql.go:200-202 | Every hour window lies inside the day window of its instants |
| Admission.SmallestRemainingWins | internal/budget/admission.go:201-265 | Admitted exactly when for every set limit the smaller of the user's and the team's remainder is positive |
| Admission.DenialNamesItsWindow | internal/budget/admission.go:204-262 | Which window a denial names, in the fields of limits and usage: the hour exactly when the hour's cost limit is reached by user or team, or the day's is not but the hour's token limit is; the day exactly in the other cases of a reached limit |
| Admission.MiddlewareInQueries | internal/budget/admission.go:113-268 | The middleware passes exactly when a query fails, there is no policy, or no limit is reached by what the user's and the team's hour and day queries return at their own instants; otherwise it denies for that window with the seconds of the decision's instant |
| Admission.AdmissionIsMonotone | internal/budget/admission.go:201-265 | Less usage, no team or higher limits never turn an admission into a denial |
| Store.Database.BudgetAdmission | internal/budget/admission.go:113-268 | The middleware with its two reader goroutines returns the specified outcome in every interleaving of their steps and every pattern of query failures, and writes nothing |
| Policies.PolicyChoiceIsDetermined | internal/db/budget.sql.go:14-27 | Under the unique constraint exactly one row can be returned, whatever the row order |
| Policies.MostSpecificPolicyWins | internal/db/budget.sql.go:35-37 | The result is the first of four exact lookups: user+team, user, team, org-wide; a request without a team skips the team scopes |
| Policies.GetBudgetPolicy | internal/db/budget.sql.go:14-27 | Returns a row ORDER BY may put first, and none exactly when no row matches |
| Policies.NullTeamNeverMatchesATeam | internal/db/budget.sql.go:20-22 | A NULL team never resolves to a team-scoped row |
| Tables.UpsertAddsOnce | internal/db/budget.sql.go:164-173 | An upsert adds exactly its charge to every sum that covers its key and changes no other |
| Tables.UpsertKeepsKeysUnique | db/migrations/000001_init.up.sql:89 | An upsert keeps one row per key |
| Store.UpsertRow | internal/db/budget.sql.go:200-209 | The search for the conflicting row followed by an in-place addition or an append is the upsert |
| Store.Database.UpsertUsageAggHour | internal/db/budget.sql.go:200-234 | The hour table after the statement, which picks the hour of its own instant; unchanged on failure |
| Store.Database.UpsertUsageAggDay | internal/db/budget.sql.go:164-198 | The day table after the statement, which picks the day of its own instant; unchanged on failure |
| Store.Database.InsertUsageEvent | internal/db/usage.sql.go:183-223 | Appends one row, or nothing on failure |
| Store.Database.RecordUsage | internal/gateway/accounting.go:69-98 | Three independent writes; a dropped one does not stop the next |
| Store.Database.PostChargeAccounting | internal/gateway/accounting.go:38-53 | No tokens, no write; otherwise one charge at the configured prices, as the three writes |
| Charging.MachineRecordsLikeTheHandler | internal/gateway/accounting.go:38-98 | From the end of the stream on: the machine's step that computes the charge and its three write steps, each at its own instant, leave the tables the handler leaves, untouched without tokens |
| Charging.ChargedInFull | internal/gateway/accounting.go:47-67 | A stream of a whole-cent model adds all its input and all its output tokens, each at its own price, and one request to every hour sum and every day sum that covers its org, user, team, provider, model and window, nothing to any other, and one event with the same |
| Charging.UnpricedIsFree | internal/gateway/accounting.go:60-67 | A model without a price is charged nothing for its tokens |
| Store.Database.VirtualKeyAuth | internal/middleware/auth.go:56-100 | An active key's identity, nothing for unknown, revoked or failed lookups; only the authenticated key's last use is touched |
| Store.Database.GetVirtualKeyByHash | internal/db/virtual_keys.sql.go:92-96 | The row with that hash, or none |
| Pricing.WholeCentsAreExact | internal/gateway/accounting.go:58-67 | At whole cents per million tokens, rounding to eight decimals loses nothing and splitting a request changes nothing |
| Pricing.RoundingDriftIsBounded | internal/gateway/accounting.go:100-105 | Under any price table n charges are off by at most n/2 units of 1e-8 USD |
| Pricing.DefaultCostsFit | internal/config/config.go:89-94 | All default prices are whole cents; every request of at most n tokens fits NUMERIC(12, 8) exactly when n is at most 666,666,666 |
| Pricing.DefaultMillions | internal/config/config.go:89-94 | What a million input and a million output tokens of each default model cost |
| Pricing.EventColumnInDigits | db/migrations/000001_init.up.sql:69 | The event's cost column holds exactly the amounts of less than 10,000 USD either way |
| Pricing.CostIsMonotone | internal/gateway/accounting.go:58-67 | More tokens of a model never cost less when prices are not negative |
| Forwarding.ForwardingPreservesEvents | internal/proxy/handler.go:184-228 | When every line fits the scanner and no CR precedes a CRLF, the client parses the upstream's events plus the one still open at its end; the two agree exactly when no data field follows the last blank line |
| Forwarding.CompleteStreamsForwardFaithfully | internal/proxy/handler.go:184-228 | A stream ending in a blank line, with LF or CRLF ends, forwards its events unchanged |
| Forwarding.ForwardedLines | internal/proxy/handler.go:202-206 | When every line fits the scanner, the client reads the completed upstream lines and one blank line more, bare CRs inside lines kept as line ends, exactly when no CR precedes a CRLF; every such CR costs one line |
| MergedEvents.DoubledCrLosesABlankLine | internal/proxy/handler.go:195-206 | A CR before a CRLF: upstream there is a blank line after the line, in the forwarded stream there is none |
| MergedEvents.DoubledCrMergesEvents | internal/proxy/handler.go:195-206 | For every two data texts a stream of two events whose first line ends in CR CR LF reaches the client as one event with both texts |
| MergedEvents.OpenEventIsDispatched | internal/proxy/handler.go:224-228 | For every data text a stream of one data line without a blank line has no event upstream and one event forwarded |
| Faithful.ForwardingIsFaithfulIff | internal/proxy/handler.go:184-228 | For every stream whose lines fit the scanner, whatever its CRs: the forwarded events are the upstream's exactly when at every blank line that gets through, and at the closing one, the event dispatched there, if any, is all that the upstream has dispatched since the blank line before |
| Faithful.MarksAreLines | internal/proxy/handler.go:195-206 | The upstream's lines and the forwarded ones are one list, of which the forwarded stream drops exactly the blank lines made by a CR before a CRLF |
| Meter.StreamSSE | internal/proxy/handler.go:179-229 | The loop's output and usage are exactly those of the lines processed before the client left; a client that stays receives the forwarded stream that the forwarding theorems are about, extra line feed included |
| Meter.AllSentIsForwarded | internal/proxy/handler.go:224-228 | What a client that stays is sent is the forwarded stream |
| Meter.CutIsSent | internal/proxy/handler.go:190-193 | What a client that leaves before line n is sent is the n lines before it, and they are what is metered |
| Meter.ServeLine | internal/proxy/handler.go:197-221 | One line: event type, forwarding, usage |
| Meter.Scanner.Scan | internal/proxy/handler.go:184-195 | Yields the next line without its line end, nothing at the end or at a line too long for the buffer |
| Forwarding.ScanLineInNumbers | internal/proxy/handler.go:184-195 | A line of at most 65,535 bytes is yielded without one CR at its end; a longer one ends the scan |
| Meter.Usage.TryParseAnthropic | internal/proxy/handler.go:231-258 | The usage object after a payload: model and input from message_start, positive outputs from both events, unchanged otherwise |
| Meter.Usage.TryParseOpenAI | internal/proxy/handler.go:260-281 | The usage object after a chunk that mentions usage and decodes; unchanged otherwise |
| Meter.MentionsUsageIff | internal/proxy/handler.go:263-265 | The quick check holds exactly when "usage" occurs somewhere in the payload |
| Meter.OpenAILineMeans | internal/proxy/handler.go:260-281 | A data line of OpenAI, in fields: model if given, both counts if there is usage, the earlier counts kept if there is none, nothing if "usage" does not occur or it does not decode |
| Meter.AnthropicLineMeans | internal/proxy/handler.go:235-258 | A data line of Anthropic, in fields, for each event type |
| Meter.EventLineMeans | internal/proxy/handler.go:197-200 | An `event:` line sets the trimmed type and meters nothing |
| Meter.EndMarkMeans | internal/proxy/handler.go:210-213 | Empty payloads and the end mark are not decoded |
| Meter.TrimTakesSpaces | internal/proxy/handler.go:199-210 | Trimming takes away spaces at both ends, all of them and nothing else |
| Meter.SpacesByCodePoint | internal/proxy/handler.go:199-210 | What counts as white space, by code point |
| Ordinary.OpenAIStreamIsMetered | internal/proxy/handler.go:260-281 | An ordinary OpenAI stream of JSON-like payloads is metered with the model and counts of its usage chunk |
| Ordinary.JsonChunkIsMetered | internal/proxy/handler.go:260-281 | A concrete such stream |
| Ordinary.AnthropicStreamIsMetered | internal/proxy/handler.go:235-258 | An ordinary Anthropic message is metered with the model and input of its message_start and the output of its message_delta |
| Metering.MeteringRefinesEvents | internal/proxy/handler.go:186-222 | On a plain stream with one data line an event, whose loop types and event types agree, the loop's usage equals the usage computed event by event from what the client parses, also when the stream stops inside an event |
| Metering.ReportsAgreeIffTypesDo | internal/proxy/handler.go:186-222 | On plain streams with one data line an event, every data line reports what its event reports, for every decoder, exactly when at each decoded payload the loop's type and the event's final type are equal or neither is metered |
| Metering.WellFramedTypesAgree | internal/proxy/handler.go:186-200 | Streams that give every event an `event:` line before its single data line, or an inert payload, meet that condition |
| Agreement.StreamUsageAgreesIff | internal/proxy/handler.go:186-222 | For every stream, with no condition on its shape: the loop's final usage equals that of the client's events, or of the provider's own, under every decoder exactly when the decoded payloads of both, with their types and each at its last occurrence, are the same list |
| SplitData.SplitDataIsNotMetered | internal/proxy/handler.go:209-221 | For every two data lines of one event the loop reads two payloads and the client one joined text, so some decoder tells them apart; if only the joined text decodes the loop meters nothing |
| Metering.MeteringRefinesUpstreamEvents | internal/proxy/handler.go:186-222 | For streams ending in a blank line those are the provider's own events |
| Metering.AnthropicCounts | internal/proxy/handler.go:235-258 | Input tokens are those of the last well-formed message_start, output tokens the last positive count of message_start or message_delta |
| Sticky.EventTypeOutlivesItsEvent | internal/proxy/handler.go:186-200 | For every two payloads: a message_start event followed by an event without `event:` line is metered as two message_start payloads, but as one event by event |
| Sticky.StickyTypeMismeters | internal/proxy/handler.go:186-200 | A concrete stream and decoder: 2 input tokens by the loop, 1 by the events |
| Disconnect.DisconnectSendsAPrefix | internal/proxy/handler.go:190-193 | A client that leaves early has received a prefix of the full output that ends at a line end |
| Disconnect.CutNeverCostsMore | internal/gateway/accounting.go:40-53 | With cumulative counts, if neither the empty name nor any model named ever costs more than the last one named, the charge for any cut is at most the charge for the full stream, under any price table |
| Switching.CutsCostNoMoreIffLastCostsMost | internal/gateway/accounting.go:40-67 | For every list of model names, price table and provider: all streams with cumulative counts that name these models in this order have all cuts at most at the full charge exactly when, over int32 counts, no name nor the empty one costs more than the last |
| Switching.CutsCostNoMoreIffLastIsDearest | internal/gateway/accounting.go:58-67 | In a table of whole cents without negative prices that condition is that no name, nor the empty one, has a higher price than the last |
| Switching.SwitchingDownCostsLess | internal/config/config.go:89-94 | A concrete two-line stream under the default prices: 5000 units for a client that leaves after the first line, 150 for one that stays |
| Disconnect.OneModelIsDearest | internal/gateway/accounting.go:58-67 | A stream that names one model only meets the condition if no price is negative and the table does not price the empty name |
| Disconnect.WholeCentsNeverCostMoreIff | internal/gateway/accounting.go:58-67 | In a table of whole cents without negative prices one model never costs more than another, over int32 counts that are no smaller, exactly when neither of its prices is higher |
| Disconnect.TinyPricesNeverShow | internal/gateway/accounting.go:100-105 | With other tables that is not so: a price of 1e-15 USD is higher than none, but no int32 count costs a unit |
| Bootstrap.BootstrapSafety | internal/portal/auth/oidc.go:197-237 | From empty tables, with failures anywhere: nothing, or exactly one org with exactly one membership, the org_admin of a login that succeeded; every login that succeeded leaves an org |
| Bootstrap.OrgIsNamedAfterDomain | internal/portal/auth/oidc.go:239-245 | An address with one "@" and something after it names the org by its domain; any other text gives the default name |
| Bootstrap.LoginBegins | internal/portal/auth/oidc.go:221-226 | The org a login would insert has the fresh id and that name |
| Bootstrap.UpsertMembershipSets | internal/portal/auth/oidc.go:228-234 | The upsert leaves the membership it sets and all memberships of other users, orgs and teams |
| Bootstrap.MutualExclusion | internal/portal/auth/oidc.go:208-211 | At most one login is between taking the lock and its release |
| Bootstrap.BootstrapHappensOnce | internal/portal/auth/oidc.go:213-219 | Once there is an org, logins change neither table |
| Bootstrap.OnlyCommitsWrite | internal/portal/auth/oidc.go:202-206 | Only the commit of a login that counted no org changes the tables; a rollback leaves nothing |
| Bootstrap.FailureIsFinal | internal/portal/auth/oidc.go:202-206 | A login that has aborted never succeeds later |
| Bootstrap.TheLockCanBeFreed | internal/portal/auth/oidc.go:206-211 | From every reachable state at most six steps of the holder free the lock |
| Bootstrap.PortalDatabase.BootstrapFirstOrgIfNeeded | internal/portal/auth/oidc.go:195-245 | The handler alone: which faults make it fail, what it creates on success, nothing changed otherwise |
| Bootstrap.SoloLoginMatchesHandler | internal/portal/auth/oidc.go:195-237 | The machine's login running alone does what the handler does under every fault: it succeeds in the same cases, leaves the same tables and frees the lock |
| Reports.ReportsConserveUsage | internal/db/usage.sql.go:14-26 | Every grouping has distinct groups and adds up to the day table restricted to org and range |
| Reports.LinesAreGroupSums | internal/db/usage.sql.go:68-79 | Every line carries exactly its own group's sums |
| Reports.ReportsInColumns | internal/db/usage.sql.go:14-26 | Column by column: every line carries the sums of input, output, cost and requests over the rows of its org, from <= start < to, and its UTC day, its user, or its model and provider |
| Reports.RangesAdd | internal/db/usage.sql.go:21-23 | The totals of [a, b) and [b, c) add up to those of [a, c) |
| Reports.JoinKeepsAllRows | internal/db/usage.sql.go:129-131 | The join with users keeps every row exactly when the foreign key holds |
| Reports.TopIsBest | internal/db/usage.sql.go:125-137 | Whatever the order of ties: min(k, n) lines by descending cost, none omitted that costs more, no choice of as many lines costs more in total, and distinct groups stay distinct |
| Reports.TopReport | internal/db/usage.sql.go:68-79 | The limited report lists min(k, number of groups) different groups by descending cost, each with exactly its own rows' sums; the rows of a group left out cost no more than any group listed |
| Reports.GroupsListed | internal/db/usage.sql.go:68-79 | A group has a line exactly when one of its rows is selected |
| Itoa.Itoa | internal/budget/admission.go:67-88 | The loop writes the decimal form within its 20-byte buffer and terminates |
| Itoa.PrintingRoundTrips | internal/budget/admission.go:67-88 | Parsing the output gives n back exactly when n is not the smallest int64 |
| Itoa.NoLeadingZeros | internal/budget/admission.go:67-88 | No leading zeros |
| Uuid.StringToUUID | internal/portal/auth/oidc.go:309-329 | The loop and its checks compute the specified parse, with its two errors |
| Uuid.ParseUndoesPrint | internal/portal/auth/oidc.go:299-329 | Parsing the printed form of a valid UUID returns it |
| Uuid.PrintIsInjective | internal/portal/auth/oidc.go:299-307 | Different UUIDs, NULL included, print differently |
| Uuid.PrintCanonicalizes | internal/portal/auth/oidc.go:309-329 | A string is accepted exactly when it has 32 hex digits between its hyphens, and reprints in canonical lower-case 8-4-4-4-12 form |
| Uuid.PrintedForm | internal/portal/auth/oidc.go:299-307 | 36 characters, hyphens at 8, 13, 18 and 23, and every byte as two lower-case digits in its place; NULL prints as nothing |
| Uuid.ErrorsOf | internal/portal/auth/oidc.go:316-322 | Which of the two errors a string gets |

## Left out

- Overshoot.BoundedOvershoot: assumes no failed policy lookup or usage read for the party, because the code admits on purpose when they fail; failed writes are allowed.
- Metering.MeteringRefinesEvents: assumes no CR inside lines, no leading byte order mark and one data line per event; other streams are covered by the condition of `Agreement.StreamUsageAgreesIff` on their payloads.
- Metering.ReportsAgreeIffTypesDo: makes the same assumptions, since only then data lines and events pair up.
- Pricing.WholeCentsAreExact: float64 evaluation is replaced by exact rationals, with one rounding to eight decimals.
- Pricing.RoundingDriftIsBounded: bounds that rounding only, not the error of float64 arithmetic before it.
- Pricing.DefaultCostsFit: exact rationals instead of float64.
- Pricing.CostIsMonotone: exact rationals instead of float64.
- HTTP plumbing, header copying, provider credentials, flushing, the upstream client: input and output only.
- Non-streaming responses: no usage is extracted from them, so nothing is charged.
- JSON decoding: two abstract functions for the Anthropic payloads and one for OpenAI chunks.
- Invalid UTF-8 in a stream: strings here are already decoded.
- Floating point in limit comparisons: whole units instead.
- Column overflow (NUMERIC, BIGINT, INT): a statement may fail at any time, which covers an overflow error, but it is not tied to the amounts.
- Statements that take their window at one instant and commit at a later one: each is one step at one instant, on one clock.
- Deletion of teams, users, orgs and keys, and the SET NULL it causes: the gateway never deletes them.
- Requests without an authenticated identity in front of budget and accounting: they are passed on untouched.
- Transactions at an isolation level other than Postgres's default, and commits whose outcome the client never learns.
- `max_concurrent_streams`: in the schema, but no code reads it; the number in flight is a parameter of the bound.
- Key generation and hashing, OIDC token exchange, sessions, org selection, dashboards, runtime settings, metrics and logging.
