# Verified model of the gateway's state and protocols

This project models the stateful and algorithmic parts of the gateway in Dafny and proves what they
promise. One module stands for one component of the source; code that changes state step by step is a
method or a class proved against a specification, and what the specification means is proved as lemmas.

- **Usage statistics** (`UsageTotals`, `UsageBuckets`, `BucketList`, `RecentCalls`, `UsageQueries`,
  `UsageAggregator`). The reference is the plain fold over every record ever ingested. The aggregator's
  bounded hour and day lists, its six groupings and its 60-second window are proved to answer every
  query as that fold does, whatever the arrival order and wherever the clock jumps.
- **Trace queries** (`LikePattern`, `SqlText`, `TraceQueries`, `Snippet`, `Text`). The WHERE text is a
  token sequence with a parser and a three-valued evaluator; compiling a query is proved to select
  exactly the rows the query asks for.
- **Execution bridge** (`JsonValues`, `BridgeHistory`, `BridgeTurn`, `BridgeUsage`, `BridgeLimits`,
  `BridgeStream`, `BridgeLog`, `BridgeRun`). History rewriting, rounds, retries, search allowance, usage report,
  streaming and billing, over whole runs against an arbitrary upstream and an arbitrary client channel.
- **Client keys** (`ClientKeys`, `ClientKeyManager`, `CallQuota`). The key table and its index, over all
  runs of operations, and a call quota that is checked at admission and counted at settlement.
- **Proxy pool** (`ProxyPool`), **image shrinking** (`ImageShrink`), **reminders and questions**
  (`Reminders`, `Questions`), **binary installation** (`BinaryInstall`), **documents** (`Documents`).

Dependence on the outside is a parameter: clocks and bucket boundaries are arbitrary functions from time
to time, image encoding is an arbitrary size function, text extraction, JSON printing and endpoint
parsing are arbitrary functions, each upstream call may answer anything, and each rename or save may fail.

## Where the code does less than expected

- Usage reports do not always add up. An integer that arrives for a field holding a fraction replaces it,
  and so does any value that is not an i64, a credit or an object; sums saturate. `BridgeUsage.FieldSum`
  gives the exact condition per field, `IntegerCreditLosesFraction` an input, and `ReportAddsUpIff` the
  exact condition for a run.
- A round whose `server_tool_use` is null makes the bridge forget the searches before it
  (`BridgeLimits.NullSectionForgets`; `MergeSearches` and `CountedIff` have the exact conditions). Rounds that
  each honour the limit they are sent can then search twice the request's limit, though never more
  (`BridgeLimits.TwiceTheLimit` for the reports, `BridgeRun.RunSearchesTwice` for a whole run).
- A streamed answer that fits the body limit, but not once the bridge has added the earlier blocks, results and
  usage, is billed, and the client gets a failure event in place of its end (`BridgeRun.OversizedAnswer`;
  `DeliveredInFullIff` says exactly when a client gets it all).
- Proxy ids are unique within one process only: after a restart the id of a deleted entry can be handed out
  again (`ProxyPool.IdReusedAfterReload`; `ReloadKeepsIdsIff` has the exact condition).
- A credential whitelist that contains 0 never counts credential-0 records
  (`UsageAggregation.WhitelistWithZero` says exactly when that matters).
- A thinking block without a signature, or a text block whose text is not a string, is not what a client
  rebuilds from its events (`BridgeStream.RebuildsExactly` says exactly which blocks are).
- An installation keeps the old bytes at every crash point exactly when they are at the executable when
  it begins (`BinaryInstall.SurvivesIff`); a second installation after a crash between the renames
  removes the only copy. A rollback that crashes between its renames cannot be completed by another;
  `RestorableAfterCrashIff` says after which crashes one can.
- The image budget test allows base64 text up to three characters over the budget, unless the budget is
  a multiple of four (`ImageShrink.BudgetExactIff`), although the comment in the source says the output
  fits.
- A rotation keeps the key index exact only when the generated plaintext is new
  (`ClientKeys.RotateKeepsIff`).
- A key file in which two entries share a plaintext gives an index that is not exact, and a
  synchronisation of the system key repairs it only when the system plaintexts are the shared ones
  (`ClientKeys.SyncRepairsIff`, `SyncDoesNotRepair`).

## Model

| member | source | states |
|---|---|---|
| UsageTotals.TotalSplit | src/admin/usage_stats.rs:752-782 | when each event falls in exactly one of two filters, the whole total is the sum of the two |
| UsageTotals.TotalPermuted | src/admin/usage_stats.rs:436-458 | the fold over the log does not depend on the order of its records |
| UsageTotals.TotalAddsUp | src/admin/usage_stats.rs:187-210 | a total holds, column by column, the sum of that column over the selected records, their number, and the number whose status is not "success" |
| UsageBuckets.AddRecordToBucket | src/admin/usage_stats.rs:752-782 | adding a record keeps the bucket the full group-by, in all six groupings, of every record of its time |
| UsageBuckets.GroupByAddsUp | src/admin/usage_stats.rs:752-782 | so every cell of all six groupings adds up column by column over the records of its time and key, model or credential |
| UsageBuckets.GroupByUnique | src/admin/usage_stats.rs:752-782 | permuted logs give equal buckets of the same time |
| UsageBuckets.Marginals | src/admin/usage_stats.rs:752-782 | the groupings are consistent marginals: keys and models sum to overall, credentials to overall minus credential-0 records, the nested maps to both their rows and columns |
| UsageBuckets.KeyMarginal | src/admin/usage_stats.rs:752-754 | by_key sums to overall |
| UsageBuckets.ModelColumn | src/admin/usage_stats.rs:755-766 | the cells of one model across all keys of by_key_model sum to by_model |
| UsageBuckets.CredentialColumn | src/admin/usage_stats.rs:770-781 | the cells of one credential across all keys of by_key_credential sum to by_credential |
| UsageBuckets.KeyCredentialMarginal | src/admin/usage_stats.rs:767-781 | a key's total is the sum of its credential cells plus its credential-0 records |
| BucketList.UpsertBucket | src/admin/usage_stats.rs:735-750 | the list stays sorted, holds the largest times seen up to capacity, and every bucket stays the full group-by over everything logged |
| BucketList.LateRepresents | src/admin/usage_stats.rs:745-749 | a record for a time already evicted is inserted in front and evicted again, so it leaves no partial bucket |
| BucketList.NewRepresents | src/admin/usage_stats.rs:740-749 | a record for a new time keeps the representation, with one eviction when the list was full |
| BucketList.KeepsExactlyRetained | src/admin/usage_stats.rs:745-749 | the times held are exactly those with fewer than the capacity of larger times ever seen |
| BucketList.RepresentsUnique | src/admin/usage_stats.rs:735-750 | logs with the same events in any order leave equal bucket lists |
| BucketList.StampsDecide | src/admin/usage_stats.rs:436-458 | only the effective times of the records decide a bucket list: a clock reading matters where a record has no time of its own |
| RecentCalls.RecordRecent | src/admin/usage_stats.rs:460-478 | under any clock readings, backwards too, the window map never counts too much and stays exact for the last 60 seconds before a bound on the readings |
| RecentCalls.RecentSize | src/admin/usage_stats.rs:460-470 | the window map never holds more than 60 keys |
| RecentCalls.WindowExact | src/admin/usage_stats.rs:485-509 | a window ending no earlier than every reading counts exactly the non-future calls of the log in it |
| RecentCalls.WindowBounds | src/admin/usage_stats.rs:485-509 | for a query at any time, lower and upper bounds on the count in terms of the log |
| UsageQueries.SeriesIsSeries | src/admin/usage_stats.rs:512-555 | the series lists, in time order, each covered bucket that saw the key, with the filtered sum over the log |
| UsageQueries.CoveredMeans | src/admin/usage_stats.rs:512-520 | a query covers the retained times from its start on and before its end |
| UsageQueries.Timeseries | src/admin/usage_stats.rs:512-555 | the loop over buckets computes the naive series from the groupings |
| UsageQueries.ModelDistribution | src/admin/usage_stats.rs:558-576 | per-model totals equal the filtered sums over the retained log |
| UsageQueries.CredentialDistribution | src/admin/usage_stats.rs:591-616 | per-credential totals equal the filtered sums over the retained log, whitelist included |
| UsageQueries.KeyDistribution | src/admin/usage_stats.rs:635-678 | per-key totals equal the filtered sums over the retained log, through by_key or by_key_credential |
| UsageQueries.Rank | src/admin/usage_stats.rs:577-588 | the output lists every entry of the map once, by descending calls |
| UsageAggregation.UsageAggregator.IngestAt | src/admin/usage_stats.rs:436-479 | both bucket lists and the window keep representing the log extended by the event |
| UsageAggregation.UsageAggregator.QueryTimeseries | src/admin/usage_stats.rs:512-555 | the answer is the naive series over the retained log, for any window, key and whitelist; every point is within the window and adds up column by column over the log |
| UsageAggregation.UsageAggregator.QueryByModel | src/admin/usage_stats.rs:558-588 | the ranked answer holds exactly the models with calls, with totals that add up column by column over the log |
| UsageAggregation.UsageAggregator.QueryByCredential | src/admin/usage_stats.rs:591-629 | the ranked answer holds exactly the credentials with calls, with totals that add up column by column over the log |
| UsageAggregation.UsageAggregator.QueryByKey | src/admin/usage_stats.rs:635-678 | the ranked answer holds exactly the keys with calls, with totals that add up column by column over the log |
| UsageAggregation.UsageAggregator.QueryCredentialActivity | src/admin/usage_stats.rs:485-509 | today's calls equal the fold over the retained day, and the rate equals the count over the log when the query time bounds every reading |
| UsageAggregation.KeepsMonth | src/admin/usage_stats.rs:735-750 | the aggregator holds exactly the last 744 hours and the last 31 days that saw a record |
| UsageAggregation.OrderIndependent | src/admin/usage_stats.rs:436-458 | aggregators that ingested the same records at the same effective times, in any order and under any clock readings, hold equal buckets |
| UsageAggregation.WhitelistWithZero | src/admin/usage_stats.rs:767-769 | a whitelist query equals the naive filter exactly when 0 is not whitelisted or no credential-0 record is selected |
| LikePattern.EscapeIsOnePass | src/admin/trace_db.rs:577-577 | the three successive replacements equal one escape per character |
| LikePattern.EscapedPrefix | src/admin/trace_db.rs:577-577 | an escaped keyword followed by % matches exactly the texts it is a prefix of |
| LikePattern.EscapedExact | src/admin/trace_db.rs:577-577 | an escaped keyword on its own matches exactly the texts that spell it |
| LikePattern.PatternMatchesSubstring | src/admin/trace_db.rs:576-588 | the pattern matches exactly the texts that contain the keyword, for any mix of pattern characters and any case folding |
| LikePattern.MatchesIgnoringAsciiCase | src/admin/trace_db.rs:576-588 | under the folding of ASCII letters the pattern matches exactly the texts that spell the keyword somewhere, in either case of each letter |
| TraceQueries.ParseJoined | src/admin/trace_db.rs:589-594 | clauses joined by AND parse to their conjunction, placeholders numbered in parameter order |
| TraceQueries.ClauseMeaning | src/admin/trace_db.rs:502-588 | each clause evaluates to true exactly when its demand holds, null columns included |
| TraceQueries.ConjunctionMeaning | src/admin/trace_db.rs:589-594 | under three-valued logic the conjunction is true exactly when every demand holds |
| TraceQueries.HopMeaning | src/admin/trace_db.rs:518-527 | the correlated EXISTS is true exactly when some attempt of this trace failed on the credential |
| TraceQueries.WhereMeaning | src/admin/trace_db.rs:589-594 | the whole text with parameters bound left to right selects a row exactly when every clause's demand holds |
| TraceQueries.ClausesMeaning | src/admin/trace_db.rs:499-588 | the clauses together demand what the query's fields ask for |
| TraceQueries.BuildWhere | src/admin/trace_db.rs:499-595 | as many placeholders as parameters, and for every row the text selects it exactly when every requested filter holds |
| TraceQueries.CountWhere | src/admin/trace_db.rs:499-595 | the placeholder count equals the parameter count |
| TraceQueries.EmptyWhitelist | src/admin/trace_db.rs:532-536 | with an empty id whitelist the generated text and parameters select no row |
| TraceQueries.AsI64Injective | src/admin/trace_db.rs:510-517 | the cast of ids to i64 never makes two u64 ids equal |
| TraceQueries.IdFiltersCompareIds | src/admin/trace_db.rs:510-546 | although rows and parameters hold ids through the cast, the id filters, the failed-attempt one included, compare the u64 ids |
| Snippet.TruncateSnippet | src/admin/trace_db.rs:205-218 | the whole trimmed text when it fits, else its longest prefix of whole characters of 2045 to 2048 bytes plus the marker, after at most three back-up steps |
| Snippet.EncodeDecodes | src/admin/trace_db.rs:205-218 | decoding an encoded text by section 3 of RFC 3629 gives its characters back |
| Snippet.MarkerDecodes | src/admin/trace_db.rs:205-218 | the marker reads as an ellipsis and "(truncated)" |
| Snippet.Boundaries | src/admin/trace_db.rs:213-216 | inside one encoded character only its first byte is a boundary |
| Snippet.FitExists | src/admin/trace_db.rs:212-217 | a text longer than the limit has a longest prefix of whole characters within it, at most three bytes short of it |
| Text.TrimCuts | src/admin/trace_db.rs:206-206 | trimming removes a blank prefix and a blank suffix and leaves a trimmed text |
| Text.TrimUnique | src/admin/trace_db.rs:206-206 | nothing else fits that description |
| Text.WhitespaceIs | src/admin/trace_db.rs:206-206 | the blanks are the 25 code points with the Unicode White_Space property |
| BridgeHistory.NormalizeHistory | src/anthropic/code_execution.rs:188-249 | the loop over messages and blocks computes the normalized history |
| BridgeHistory.TurnKeepsBlocks | src/anthropic/code_execution.rs:195-246 | flattening a normalized turn gives its blocks in order, each rewritten in place |
| BridgeHistory.HistoryKeepsBlocks | src/anthropic/code_execution.rs:188-249 | flattening a whole normalized history gives the blocks of all its messages in order, each rewritten in place |
| BridgeHistory.ConvertsIff | src/anthropic/code_execution.rs:198-223 | a block becomes a result message exactly when it is a result of one of the three server tools for an id that an earlier block called and no block in between answered |
| BridgeHistory.ImageMeans | src/anthropic/code_execution.rs:198-237 | such a block becomes a tool_result with its id, its content printed, and an error flag set exactly when the content names an error or a return code other than 0; a call becomes a use of the internal tool with its other fields; any other block stays |
| BridgeHistory.HistorySendsResult | src/anthropic/code_execution.rs:188-249 | in a normalized history each such result is the one block of a user message of its own |
| BridgeHistory.RepliesFollowUses | src/anthropic/code_execution.rs:197-239 | every result message names a tool use in an earlier assistant message made from the same turn |
| BridgeHistory.NoMoreResultsThanUses | src/anthropic/code_execution.rs:205-223 | never more results than uses of an id |
| BridgeHistory.OtherMessagesUntouched | src/anthropic/code_execution.rs:191-194 | a message that is not an assistant array stays in place as it is |
| BridgeHistory.NormalizeIdempotent | src/anthropic/code_execution.rs:188-249 | normalizing twice equals normalizing once |
| BridgeHistory.RewriteSettles | src/anthropic/code_execution.rs:198-212 | a rewritten block opens nothing again, keeps what it answers, and carries the id it opened |
| BridgeTurn.ProcessTurn | src/anthropic/code_execution.rs:388-416 | the round's blocks as shown, its feedback, and whether reserved or client tools were used; an error exactly when a turn ended early with a reserved use |
| BridgeTurn.NoReservedShown | src/anthropic/code_execution.rs:395-416 | no block shown to the client is a tool use under one of the two reserved names |
| BridgeTurn.ShownMeans | src/anthropic/code_execution.rs:251-265 | a use of a reserved tool is shown as a call of the server tool under a new id, with its other fields, and a result for that id that says it is unavailable |
| BridgeTurn.ShownPairReplays | src/anthropic/code_execution.rs:251-265 | a shown call, replayed, opens the id its shown result answers, under the original internal name, and the result counts as an error |
| BridgeTurn.PairNormalizes | src/anthropic/code_execution.rs:251-265 | replaying a shown pair normalizes to the tool use followed by its result message |
| BridgeTurn.FeedbackCovers | src/anthropic/code_execution.rs:405-412 | in a round without client uses every tool use has its feedback |
| BridgeTurn.FeedbackAnswers | src/anthropic/code_execution.rs:405-412 | every feedback answers a reserved use of the round |
| BridgeUsage.AggregateUsage | src/anthropic/code_execution.rs:267-285 | the loop over fields, in any order, computes the merged report |
| BridgeUsage.FieldSum | src/anthropic/code_execution.rs:270-282 | one merged field is the sum of old and new exactly under a condition on the two values |
| BridgeUsage.IntegerCreditLosesFraction | src/anthropic/code_execution.rs:270-274 | half a credit followed by an integer credit reports one |
| BridgeUsage.ReportIsPointwiseSum | src/anthropic/code_execution.rs:267-285 | reports of one shape add up at every path, as long as no running total leaves the i64 range |
| BridgeUsage.FieldSumAt | src/anthropic/code_execution.rs:267-285 | following any path inside any field, the merged amount is the sum exactly under a condition on the two values |
| BridgeUsage.ReportAddsUpIff | src/anthropic/code_execution.rs:267-285 | a run of any reports without negative numbers never reports more than the sum at a path, and reports it exactly when every merge keeps it there |
| BridgeLimits.GrantedIff | src/anthropic/code_execution.rs:58-87 | a delay is granted exactly for a 429 of the first two tries when it is what Retry-After asks, never shorter: the seconds, until the date, or 5 and 10 s without the header; and ends at least two seconds before the 120 s deadline |
| BridgeLimits.CapTools | src/anthropic/code_execution.rs:315-326 | each tool whose first limit of its name is set gets what is left of it; others stay |
| BridgeLimits.CappedMeans | src/anthropic/code_execution.rs:302-326 | the first web search tool of a name gives the limit, of which the searches so far are taken off; a tool without one stays as it is |
| BridgeLimits.MergeSearches | src/anthropic/code_execution.rs:267-318 | a merge adds the searches exactly when the report counts its own or there were none before |
| BridgeLimits.CountedIff | src/anthropic/code_execution.rs:267-326 | when each round searches no more than is left, the report counts all searches exactly when no round loses those before it |
| BridgeLimits.SearchesWithinLimit | src/anthropic/code_execution.rs:302-326 | rounds that each honour what is left and never lose the count stay within the original limit together |
| BridgeLimits.SearchesBounded | src/anthropic/code_execution.rs:267-326 | whatever is lost, the total is at most the count plus the limit once per loss, and at most every second round loses the count |
| BridgeLimits.FourRoundsSearchTwice | src/anthropic/code_execution.rs:267-326 | so four rounds search at most twice the limit |
| BridgeLimits.TwiceTheLimit | src/anthropic/code_execution.rs:267-326 | and three rounds can search exactly that, each within what it was given |
| BridgeLimits.NullSectionForgets | src/anthropic/code_execution.rs:280-282 | a null search section resets the count of searches |
| BridgeStream.ContentEvents | src/anthropic/structured_output.rs:406-449 | the loop renders block after block from the offset |
| BridgeStream.EachBlockOnce | src/anthropic/structured_output.rs:406-449 | the events of an index are exactly those of that block |
| BridgeStream.BlocksInOrder | src/anthropic/structured_output.rs:406-449 | indices never decrease along the events |
| BridgeStream.TailIsTheRest | src/anthropic/code_execution.rs:557-568 | what was streamed plus the filtered tail is the events of the whole content and the closing events |
| BridgeStream.Progress.Publish | src/anthropic/code_execution.rs:44-55 | sends what is new as far as the channel takes it; the block count moves exactly when all of it went out |
| BridgeStream.Progress.Finish | src/anthropic/code_execution.rs:557-588 | the client has as much of the whole message as its channel takes, and all of it exactly when the channel suffices |
| BridgeStream.RebuildsExactly | src/anthropic/structured_output.rs:406-449 | applying a block's deltas to its announcement gives the block back exactly when its streamed fields are present strings or inputs |
| BridgeStream.ClientRebuilds | src/anthropic/structured_output.rs:406-472 | a client that follows the events of a whole message, each block started empty, filled and stopped in turn, ends with its stop reason, stop sequence and usage, and with each block as it was exactly when its streamed fields are present strings or inputs |
| BridgeRun.CallUpstream | src/anthropic/code_execution.rs:327-351 | the reply, the calls and the sleeps of a round are those its chain of granted retries determines |
| BridgeLog.CallsBounded | src/anthropic/code_execution.rs:327-351 | one call for the first round and at most three for each other, as many sleeps as calls beyond the first, each after a 429, as long as its Retry-After asks and over two seconds before the deadline |
| BridgeLog.AnswerIsFinal | src/anthropic/code_execution.rs:327-351 | a round goes on only with an answer after which no further sleep can be granted |
| BridgeLog.RunDetermined | src/anthropic/code_execution.rs:287-498 | the surroundings determine the run: its rounds, its last request, calls, sleeps, presentation, outcome and billing |
| BridgeLog.RunBounds | src/anthropic/code_execution.rs:313-379 | at most four rounds and ten calls, good sleeps only, and accepted bodies within 8 MiB together |
| BridgeLog.RefusedOutcomes | src/anthropic/code_execution.rs:352-404 | each outcome of a refused answer holds exactly when the last reply of the last round asked calls for it |
| BridgeLog.ClosedOutcomes | src/anthropic/code_execution.rs:424-491 | success, schema failure, disconnection, a deadline while publishing, round limit and failed restoration each hold exactly under a condition on the last accepted round |
| BridgeLog.MessageMeans | src/anthropic/code_execution.rs:388-434 | what the outcomes rest on, by the fields of the message: whether it ended normally, uses a reserved tool, and uses a tool of the client |
| BridgeLog.TextReplaced | src/anthropic/structured_output.rs:316-328 | a displayed identity replaces the text of the first text block, which loses its citations, removes the other text blocks and leaves all others in order |
| BridgeRun.RunRounds | src/anthropic/code_execution.rs:287-498 | the run is the one upstream and the channel determine: each round holds the answer upstream gave it and follows from the rounds before, the outcome is the one the last round calls for, one call is billed exactly on success, and the client was sent what was shown as far as its channel took it |
| BridgeRun.RunStreamed | src/anthropic/code_execution.rs:504-589 | what the client has when the run is over: on success, on failure, when it leaves while a call is awaited or a round is published, when the deadline fires in either place, or when the answer is too long to read back |
| BridgeRun.DeliveredInFullIff | src/anthropic/code_execution.rs:552-588 | after success the client has each block of the message once, in order and closed, exactly when the message is within the body limit and the channel takes the rest; it is billed either way |
| BridgeRun.FullDelivery | src/anthropic/code_execution.rs:552-588 | a client that gets the whole of a successful run is told last that it ended and before that its stop reason, stop sequence and usage, everything else it gets belongs to blocks, and following the events it has the message |
| BridgeRun.OversizedAnswer | src/anthropic/code_execution.rs:552-573 | an answer within the body limit, of the length its message has, whose final message is over it is billed, and the client never gets the whole of it |
| BridgeRun.UsageIsSum | src/anthropic/code_execution.rs:381-434 | the final message reports at every path the sum over what upstream reported in its rounds, for reports of one shape |
| BridgeRun.UsageAddsUpIff | src/anthropic/code_execution.rs:381-434 | for any reports without negative numbers it does so exactly when every merge keeps the sum |
| BridgeRun.NoReservedVisible | src/anthropic/code_execution.rs:395-446 | neither what is streamed nor the final message holds a use of a reserved tool |
| BridgeRun.ContinuedRoundPaired | src/anthropic/code_execution.rs:469-492 | each round asked after another, also one that is then refused, is asked with the normalized old history, that round's content and a feedback for each of its tool uses, and with an automatic tool choice |
| BridgeRun.RunWithinSearchLimit | src/anthropic/code_execution.rs:302-326 | when each round honours the limit it is sent, the run searches at most twice the request's limit, no more than the limit if no round loses the count, and its report counts all searches exactly then |
| BridgeRun.RunSearchesTwice | src/anthropic/code_execution.rs:267-326 | a successful run whose rounds honour the limits they are sent, one of them with a null section, searches twice the request's limit |
| BridgeRun.FinalContent | src/anthropic/code_execution.rs:432-446 | the final message holds the presentation, the whole report and the client's stop reason |
| BridgeRun.FinalMeans | src/anthropic/code_execution.rs:432-446 | the final stop reason is upstream's, unless reserved uses were answered: then it says whether the client has a tool to run; every other field but content and usage is upstream's |
| ClientKeys.CreateKeeps | src/admin/client_keys.rs:197-237 | creating keeps plaintexts distinct and ids below the next id, and the plaintext is held afterwards |
| ClientKeys.NewIdIsNew | src/admin/client_keys.rs:208-236 | a new plaintext gets an unused id and authenticates as it |
| ClientKeys.SyncKeeps | src/admin/client_keys.rs:241-315 | synchronising keeps the table's invariant and leaves 0 the only system key |
| ClientKeys.SyncRevokes | src/admin/client_keys.rs:241-315 | after a new system value it authenticates as 0, the old one as nobody, every other plaintext as before |
| ClientKeys.SyncPreserves | src/admin/client_keys.rs:241-302 | exactly the spared entries remain, and they and the system entry keep their metadata and statistics |
| ClientKeys.SyncRepairsIff | src/admin/client_keys.rs:286-310 | a synchronisation leaves a well-kept table exactly when no two entries it spares share a plaintext |
| ClientKeys.SyncDoesNotRepair | src/admin/client_keys.rs:286-310 | two ordinary entries sharing another plaintext survive it, and then no index is exact |
| ClientKeys.SyncIdempotent | src/admin/client_keys.rs:241-315 | synchronising the same value again changes nothing |
| ClientKeys.DeleteKeeps | src/admin/client_keys.rs:317-334 | deleting keeps the invariant, refuses system keys, and frees the plaintext |
| ClientKeys.RotateKeepsIff | src/admin/client_keys.rs:508-519 | rotation keeps the invariant exactly when no other entry holds the generated plaintext |
| ClientKeys.RotatePreserves | src/admin/client_keys.rs:508-519 | rotation changes the plaintext alone: rotating back restores the table |
| ClientKeys.ChargesAddUp | src/admin/client_keys.rs:631-647 | over every run, a key that is still there and was not reset, the system key included, has moved by exactly the sum of what was charged to it |
| ClientKeys.ExhaustedStays | src/admin/client_keys.rs:572-603 | a key whose quota is used up, by credits or by calls, is not admitted in any run that neither resets it nor edits its limits or billing |
| ClientKeys.RunKeeps | src/admin/client_keys.rs:197-656 | over every run of operations with fresh generated keys the invariant holds, and 0 stays the only system key |
| ClientKeys.MatchUnique | src/admin/client_keys.rs:557-571 | at most one enabled entry has a plaintext |
| ClientKeys.InverseUnique | src/admin/client_keys.rs:304-310 | the table has only one exact index |
| ClientKeyManagement.BuildIndex | src/admin/client_keys.rs:304-308 | indexing any table in any order gives exactly the plaintexts in use, each at a holder, and the exact inverse exactly when plaintexts are distinct |
| ClientKeyManagement.RetainSurvivors | src/admin/client_keys.rs:287-294 | exactly entry 0 and the entries with neither the new nor the old system plaintext remain, unchanged |
| ClientKeyManagement.ClientKeyManager.Load | src/admin/client_keys.rs:129-158 | from any saved list the table keeps the last entry of each id, and table and index are in step exactly when an entry is the last of its id just when it is the last of its plaintext |
| ClientKeyManagement.DistinctIdsAgreeIff | src/admin/client_keys.rs:146-152 | for a list of distinct ids that is: no two entries share a plaintext |
| ClientKeyManagement.RepeatedIdLeavesStaleKey | src/admin/client_keys.rs:146-152 | a repeated id breaks the index although a single entry survives |
| ClientKeyManagement.ClientKeyManager.Run | src/admin/client_keys.rs:197-656 | over every run of operations with fresh generated keys the index stays the exact inverse of the table the operations make |
| ClientKeyManagement.ClientKeyManager.CreateWithKey | src/admin/client_keys.rs:197-237 | returns the entry holding the plaintext, or a new one that is enabled, unused and unlimited, with table and index in step |
| ClientKeyManagement.ClientKeyManager.SyncSystemKey | src/admin/client_keys.rs:241-315 | from any table the result is the synchronised one with a rebuilt index, exact exactly when plaintexts are distinct, and it is saved exactly when something changed |
| ClientKeyManagement.ClientKeyManager.Delete | src/admin/client_keys.rs:317-334 | removes exactly the deletable entry and its index entry |
| ClientKeyManagement.ClientKeyManager.Rotate | src/admin/client_keys.rs:508-519 | replaces the plaintext only, keeping the index exact exactly when the new plaintext is free |
| ClientKeyManagement.ClientKeyManager.FindEnabled | src/admin/client_keys.rs:557-568 | the full scan in any order finds exactly what the index finds |
| ClientKeyManagement.ClientKeyManager.VerifyAndTouchEx | src/admin/client_keys.rs:557-604 | not found exactly when no enabled entry matches; otherwise admitted and counted exactly when the quota of its billing mode has room, and denied with the two numbers of that mode |
| ClientKeyManagement.ClientKeyManager.RecordUsage | src/admin/client_keys.rs:631-647 | adds each amount to its own total of the named entry, counts the call if it counts, and touches nothing else |
| ClientKeyManagement.ClientKeyManager.SetMeta | src/admin/client_keys.rs:399-431 | changes the parts of the entry that are named and no other |
| ClientKeyManagement.ClientKeyManager.ResetTotals | src/admin/client_keys.rs:522-541 | zeroes the counters of the entry and leaves everything else |
| ClientKeyManagement.ClientKeyManager.SetMaxCredits | src/admin/client_keys.rs:606-629 | sets the credit limit unless it is negative |
| CallQuota.SuccessesBounded | src/admin/client_keys.rs:586-603 | in every interleaving successes never exceed limit + concurrency - 1, and a key at its limit, so any key with limit 0, is never admitted |
| CallQuota.BoundIsTight | src/admin/client_keys.rs:586-635 | some run reaches that bound |
| ProxyPool.ProxyPoolManager.constructor | src/admin/proxy_pool.rs:167-176 | a saved list is kept as it is, with the next id above its ids, and is well kept exactly when ids and endpoints are distinct |
| ProxyPool.ProxyPoolManager.Add | src/admin/proxy_pool.rs:192-213 | adds exactly one fresh entry, enabled and never checked, or reports why not; memory always equals the last saved list |
| ProxyPool.ProxyPoolManager.FindOrAdd | src/admin/proxy_pool.rs:217-234 | returns the entry of the endpoint, or adds it, or leaves the list when saving fails |
| ProxyPool.ProxyPoolManager.BatchAdd | src/admin/proxy_pool.rs:237-275 | the new entries are saved together or none stays, and the errors are those of the lines |
| ProxyPool.ProxyPoolManager.Update | src/admin/proxy_pool.rs:278-333 | edits exactly one entry, whose address takes each part the patch names and keeps the others, refuses an endpoint of another entry, and undoes an unsaved edit |
| ProxyPool.ProxyPoolManager.Delete | src/admin/proxy_pool.rs:335-347 | removes exactly one entry, or puts it back where it was when saving fails |
| ProxyPool.ProxyPoolManager.SetEnabled | src/admin/proxy_pool.rs:353-371 | switches exactly one entry, or restores it when saving fails |
| ProxyPool.ProxyPoolManager.Run | src/admin/proxy_pool.rs:192-371 | over every run of operations, whichever saves fail, memory equals the last saved list and is the pool the operations make |
| ProxyPool.RunKeeps | src/admin/proxy_pool.rs:192-371 | over every run endpoints and ids stay distinct, and an id handed out and gone is never handed out again by the same process |
| ProxyPool.ReloadKeepsIdsIff | src/admin/proxy_pool.rs:167-176 | a restart goes on with the old ids exactly when the last one handed out is in use or none was |
| ProxyPool.IdReusedAfterReload | src/admin/proxy_pool.rs:167-213 | adding, deleting and restarting hands the same id out again |
| ProxyPool.BatchKeeps | src/admin/proxy_pool.rs:237-265 | the entries a batch adds keep endpoints and ids distinct |
| ProxyPool.LineFate | src/admin/proxy_pool.rs:242-265 | what happens to a line follows from the lines alone: skipped, added when new to the pool and to earlier lines, an error otherwise |
| ProxyPool.EveryLineAccounted | src/admin/proxy_pool.rs:242-265 | every line that is not blank or a comment is either added or an error |
| ProxyPool.UpdatedFields | src/admin/proxy_pool.rs:305-326 | a changed endpoint forgets health checks and lifts only the disabling they caused |
| ImageShrink.Shrink | src/image_resize.rs:274-314 | for any lowering step the result is the first rung that meets the budget or the last rung of both, with the exact number of encodings, at most quality rungs times size rungs; a failure is that of the first rung that fails, none before meeting the budget |
| ImageShrink.QualityRungs | src/image_resize.rs:298-308 | the qualities tried for one size: each ten below the one before, down to 35 |
| ImageShrink.SizeRungs | src/image_resize.rs:309-314 | a step that takes at most a / b of a side gives a long side of at most 256 * (b / a)^n at most n + 1 size rungs |
| ImageShrink.SizesFollow | src/image_resize.rs:309-314 | each next size is the step of the one before or the floor of 256, and smaller |
| ImageShrink.SizesAtMost | src/image_resize.rs:271-314 | no size tried is over the first, which is the image's or the cap, whichever is smaller |
| ImageShrink.FitsBounds | src/image_resize.rs:304-304 | a passing budget test bounds the base64 text to three characters over the budget |
| ImageShrink.FitsIff | src/image_resize.rs:304-304 | for a budget below 2^61 saturation never matters to the test |
| ImageShrink.BudgetExactIff | src/image_resize.rs:304-304 | the test guarantees the budget exactly when it is a multiple of four |
| Reminders.StripEdgeReminders | src/anthropic/identity.rs:29-51 | the bounded loop computes eight rounds of stripping |
| Reminders.ResultIsClean | src/anthropic/identity.rs:29-51 | a result is a trimmed contiguous part of the input with no tag at its edges |
| Reminders.StripIdempotent | src/anthropic/identity.rs:29-51 | stripping a result again changes nothing |
| Reminders.UnwrapsExactly | src/anthropic/identity.rs:29-51 | a clean text wrapped in well-formed reminders on either edge, any whitespace between, comes back exactly when there are fewer reminders than rounds |
| Reminders.SevenReminders | src/anthropic/identity.rs:29-51 | with the reminder tags: at most seven reminders are undone exactly, more are refused |
| Reminders.PeelFront | src/anthropic/identity.rs:34-39 | one round takes exactly the leading reminder off |
| Reminders.PeelBack | src/anthropic/identity.rs:40-45 | one round takes exactly the trailing reminder off |
| Reminders.FrontIff | src/anthropic/identity.rs:34-39 | a text that begins with an opening tag loses exactly the part up to the first closing tag, and is refused when there is none or another opening tag comes before it |
| Reminders.BackIff | src/anthropic/identity.rs:40-45 | the same from the end, from the last opening tag |
| Questions.ContextIgnored | src/anthropic/identity.rs:54-61 | context messages after the question never change it |
| Questions.AssistantHides | src/anthropic/identity.rs:57-64 | a later turn that is not the user's leaves no question |
| Questions.WrappedQuestion | src/anthropic/identity.rs:53-87 | wrapping a clean question in at most seven reminders does not change the question found |
| Questions.WrappedBlocks | src/anthropic/identity.rs:53-87 | the same for a question in text blocks, each wrapped in its own reminders |
| Questions.QuestionIff | src/anthropic/identity.rs:66-87 | there is a question exactly when the content is at most 32 texts that can all be stripped, one is left non-empty, and together they have at most 8192 bytes |
| Questions.JoinedConcat | src/anthropic/identity.rs:82-87 | the texts of a question are joined by line ends |
| BinaryInstall.InstallBinary | src/admin/binary_update.rs:415-435 | the file system goes through states of the installation and no others, and ends in its last |
| BinaryInstall.RestoreBackup | src/admin/binary_update.rs:438-462 | the file system goes through states of the rollback and no others, and ends in its last |
| BinaryInstall.SurvivesIff | src/admin/binary_update.rs:415-435 | bytes at the executable or backup survive every crash point and failure pattern exactly when they are at the executable at first |
| BinaryInstall.InstallEnds | src/admin/binary_update.rs:426-434 | success leaves new bytes in place and old ones in the backup; an error whose roll back succeeded leaves the executable as it was |
| BinaryInstall.InstallFrame | src/admin/binary_update.rs:415-435 | no other file is touched at any point of an installation |
| BinaryInstall.InstallThenRestore | src/admin/binary_update.rs:415-462 | a rollback after an installation returns the original bytes |
| BinaryInstall.RunKeepsExecutable | src/admin/binary_update.rs:415-462 | over every run of completed installations and rollbacks, whichever steps fail, there is an executable, and it and any backup are whole known versions, as long as undoing succeeds |
| BinaryInstall.RestoreKeeps | src/admin/binary_update.rs:438-462 | both versions exist at every crash point of a rollback until its last step |
| BinaryInstall.RestoreSucceedsIff | src/admin/binary_update.rs:438-462 | a rollback succeeds exactly when executable and backup are there and both renames work |
| BinaryInstall.RestorableAfterCrashIff | src/admin/binary_update.rs:438-462 | after a crash at any point of any rollback another can succeed exactly when it crashed before its first rename, or failed at its second and undid the first |
| BinaryInstall.SecondInstallLoses | src/admin/binary_update.rs:415-435 | after a crash between the renames a second installation removes the only copy of the old bytes |
| BinaryInstall.CrashedRestoreIsStuck | src/admin/binary_update.rs:438-462 | after a crash between its renames no rollback succeeds, and an installation removes the backup |
| Documents.ConvertBlocks | src/anthropic/documents.rs:51-78 | the recursion with its running total computes the conversion |
| Documents.ConvertSucceedsIff | src/anthropic/documents.rs:51-78 | a conversion succeeds exactly when every document is readable and the total stays in budget, and the total grows by the sum of the text sizes |
| Documents.ConvertReplaces | src/anthropic/documents.rs:51-78 | only documents change, wherever they are nested: each becomes a text block with its text and its cache marker |
| Documents.NoneLeft | src/anthropic/documents.rs:40-49 | afterwards the search finds no document |
| Documents.DocumentFreeFixed | src/anthropic/documents.rs:51-78 | a value without documents is unchanged, at any total |
| Documents.Request.Prepare | src/anthropic/documents.rs:13-38 | success exactly when there is no document or all are readable within 2 MiB across all messages; an error leaves the messages unchanged |

## Left out

- UsageAggregation.UsageAggregator.IngestAt: counters are unbounded and credits are exact reals, so u64 overflow and floating-point rounding are not modelled; the RFC 3339 text of a timestamp is already parsed to whole seconds.
- UsageAggregation.UsageAggregator.QueryTimeseries: points are ordered by time, while the source sorts their rendered texts.
- Local time: bucket starts and dates are arbitrary functions of time, so daylight-saving gaps (bucket 0) are one of their values.
- Rebuilding the aggregator from log files, log retention and the overview endpoint.
- TraceQueries.BuildWhere: the SQL is a token sequence with the precedence, three-valued logic and LIKE rules that SQLite documents; SQLite's tokenizer, type affinity and limits are not modelled. Case folding is a parameter of LIKE.
- The trace store's tables: insertion, cleanup and deletion per credential.
- BridgeUsage.ReportIsPointwiseSum: integers converted to floating point are exact here, and credits are exact reals.
- BridgeRun.RunRounds: the search-context restoration, the identity text, output validation and the upstream handlers are arbitrary functions; keep-alive pings, panics of the worker and preparing the tool list of a request are not modelled. The deadline of the whole run can fire, and the client can leave, while a call is awaited or a round is published; leaving during a retry sleep counts as leaving during the call after it.
- BridgeStream.Progress.Publish: an event is sent whole or not at all; the channel is how many more events it takes, in each round and at the end.
- Saving the key file (failures are only logged there), group renames and cache settings of keys; credit limits that are not finite.
- CallQuota.SuccessesBounded: the limit, the billing mode and the counters are not edited during the run.
- ProxyPool.ProxyPoolManager.Add: normalizing, parsing, naming and showing endpoints are arbitrary functions; health checks, failover and loading old formats are left out.
- ImageShrink.Shrink: the size step is any function that makes a side above the floor smaller, of which the source's single-precision multiplication is one; decoding, resampling and encoding are an arbitrary function to sizes.
- BinaryInstall.InstallBinary: a rename is atomic and replaces its target; downloads, checksums, archives and permissions are not modelled.
- Documents.Request.Prepare: extracting a document's text is an arbitrary function that may fail; the worker limit is not modelled.
- Routing, handlers, the admin interface, account flows, token estimates and prompt texts.
