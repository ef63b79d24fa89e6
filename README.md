# util_rs core, modelled in Dafny

`util_rs` is a grab-bag Rust library used by crawlers ("spiders") and their
operators. Its core consists of small sequential decision rules wrapped in
network and thread plumbing. This project models those rules and proves
properties about them:

- **Request statistics** (`SpiderStats`, `SpiderEntity`). A spider records
  every finished request into per-window counters: a total, a latency sum, a
  running average, a histogram of HTTP status codes and one counter per
  outcome. A report turns the counters into a `Stats` snapshot and starts a
  fresh window. The snapshot carries the error rate, the cache-hit rate, the
  runtime and one TCP probe latency per host.
- **Process-wide cells and the reporting thread** (`SpiderMod`). `Global<T>`
  is a write-once cell. `init_spider_vars` fills two such cells and starts a
  loop that asks the host supplier for hosts and sends a report each cycle.
- **Push sessions** (`SpiderPush`). One worker per push target connects to a
  WebSocket, forwards reports, pings every 30 s, and drops the session when
  the peer has been silent for 60 s. It reconnects after 3000 ms (failed
  connect) or 500 ms (ended session).
- **Telegram notification forwarding** (`NotifyTg`). A forwarding loop passes
  on only every 100th "timed out" message. A worker fans each item out to
  every subscriber.
- **Tool helpers** (`ToolMod`, `ToolRemoveList`, `ToolTyp`, `ToolHosts`,
  `ToolTg`, `ClientWebsocket`):
  - the `base_trim` symbol-alias stripping;
  - black/white-list loading with a bounded retry loop;
  - lenient JSON number and decimal decoding;
  - host-list splitting;
  - Telegram keyboard layout and fan-out;
  - WebSocket dial-address resolution.

Shared helper modules:

- `Wrappers`: `Option` and `Result`.
- `Num`:
  - the integer widths;
  - decimal printing and `str::parse::<i64>`;
  - Rust's truncating integer division.
- `Strings`: prefix, suffix, substring and `str::replace`.

Clocks, TCP dials, HTTP answers, Telegram API answers, JSON parsing and
`Decimal` parsing are parameters of the operations that use them. A
parameter is either a function argument (an oracle) or an event in a trace.
Objects the source updates in place are classes:

- `InnerStats` and `RequestStats`;
- `Global<T>`;
- the broadcast sender `Broadcast`;
- the string set `StringSet`.

Each of them has a value-level specification function, and the lemmas are
about those functions.

## Model

| member | source | states |
|---|---|---|
| Wrappers.Option.GetOr | src/tool/typ.rs:69 | `unwrap_or` / `unwrap_or_default`: the held value, or the default for None |
| Num.DigitValue | src/spider/stats.rs:215 | a decimal digit character's value is 0..9 |
| Num.DigitChar | src/spider/stats.rs:215 | the digit character of 0..9 is a digit whose value is that number |
| Num.ShowNat | src/spider/stats.rs:215 | `to_string` of an unsigned number is a non-empty run of decimal digits, starting with '0' only for 0 |
| Num.ShowNatRoundTrip | src/spider/stats.rs:215 | reading the printed digits back gives the number |
| Num.ShowNatInjective | src/spider/stats.rs:212-216 | different status codes print to different keys |
| Num.ShowInt | src/tool/typ.rs:65-72 | the decimal text of an i64 is non-empty and starts with '-' exactly for negatives |
| Num.ParseI64 | src/tool/typ.rs:69 | `parse::<i64>`: any value it yields lies in the i64 range, and the empty text yields none |
| Num.ParseShowInt | src/tool/typ.rs:69 | parsing the decimal text of an i64 gives the i64 back |
| Num.DigitsValueLeadingZero | src/tool/typ.rs:69 | a leading '0' changes neither digit-ness nor value |
| Num.ParseI64Accepts | src/tool/typ.rs:69 | digits within range parse to their value, also with a leading '+' or an extra leading '0' |
| Num.ParseI64AcceptsNegative | src/tool/typ.rs:69 | '-' and digits down to −2^63 parse to the negated value |
| Num.ParseI64RejectsNonDigit | src/tool/typ.rs:69 | any character but a leading sign that is not a digit makes the parse fail |
| Num.DivTrunc | src/spider/stats.rs:193 | Rust's `/` on i64: the quotient rounded toward zero, with remainder of the dividend's sign smaller than the divisor |
| Strings.StartsWith | src/tool/hosts.rs:13 | `starts_with`: the text begins with the pattern |
| Strings.EndsWith | src/tool/mod.rs:13 | `ends_with`: the text ends with the pattern |
| Strings.Contains | src/notify/tg.rs:47 | `contains`, searched from the left (its meaning is `ContainsIffOccurs`) |
| Strings.ReplaceAll | src/tool/remove_list.rs:38 | `replace`: non-overlapping occurrences from the left each replaced (see the two lemmas below) |
| Strings.ContainsIffOccurs | src/notify/tg.rs:47 | `contains` holds iff the pattern occurs at some position |
| Strings.ReplaceAbsent | src/tool/remove_list.rs:38 | `replace` with a pattern that does not occur leaves the text unchanged |
| Strings.ReplaceBySelf | src/tool/remove_list.rs:38 | replacing a pattern by itself leaves the text unchanged |
| Strings.ReplaceSkip | src/tool/remove_list.rs:38 | a prefix in which no occurrence of the pattern starts is kept verbatim, and the rest of the text is replaced on its own |
| SpiderEntity.AllRequestResults | src/spider/entity.rs:6-12 | the five outcomes, each once, every outcome among them, two of them successes |
| SpiderEntity.RequestResult.IsSuccess | src/spider/entity.rs:7-8 | the two success kinds, as `update_stats` counts them (src/spider/stats.rs:146-153) |
| SpiderEntity.RequestResult.IsCacheHit | src/spider/entity.rs:8 | only `SuccessfulAndCache` |
| SpiderEntity.RequestResult.IsError | src/spider/entity.rs:9-11 | the three error kinds |
| SpiderEntity.OutcomeClassification | src/spider/entity.rs:6-12 | every outcome is a success or an error and not both; only `SuccessfulAndCache` is a cache hit; `Successful` is the success without one |
| SpiderStats.Fresh | src/spider/stats.rs:100-115 | `InnerStats::new`: every counter 0, empty histogram, init and start time both the clock reading, and the counter invariant holds |
| SpiderStats.Consistent | src/spider/stats.rs:118-164 | the counter invariant; it implies successes are between 0 and the total, and an empty window has no successes and a zero average |
| SpiderStats.Recorded | src/spider/stats.rs:118-164 | `update_stats`: total +1; latency += response − request; status code 0 leaves the histogram alone; any other code gains 1 (inserted at 1 if absent) and no other code changes; exactly the outcome's counters rise by one (both success and cache for `SuccessfulAndCache`); the invariant is preserved |
| SpiderStats.RecordAll | src/spider/stats.rs:118-164 | a sequence of updates raises the total by its length |
| SpiderStats.CountRequest | src/spider/stats.rs:125-142 | total +1 and the average recomputed from the new totals; the outcome counters and times are untouched; the histogram keeps excluding code 0 and zero counts |
| SpiderStats.CountOutcome | src/spider/stats.rs:144-163 | exactly one outcome counter rises, by one (the four sum to one more), the cache-hit counter with it for a cache hit, nothing else changes |
| SpiderStats.RecordAllCounts | src/spider/stats.rs:100-164 | after any sequence of updates the total grows by the number of records, successes and cache hits by the records of their kind, the three error counters together by the failed records, and the latency sum by the records' latencies; init and start time are kept, and so is the invariant (total = successes + the three errors, cache hits ≤ successes, no code 0, average = latency / total) |
| SpiderStats.ToStats | src/spider/stats.rs:167-223 | the snapshot: period from start time to the end reading; exception counts, total and cache hits copied; error rate 0 for no requests, else errors/total; cache-hit rate 0 for no successes, else the rounded ratio; runtime = (end − init) truncated /1000; rounded average latency; histogram under stringified keys |
| SpiderStats.RoundMillis | src/spider/stats.rs:199 | `(x * 1000.0).round() / 1000.0` on an exact number: a multiple of 0.001 no more than 0.0005 from x; for x ≥ 0 a tie goes up, the result is non-negative and stays within [0, 1] for x in [0, 1]; 0 for 0 |
| SpiderStats.RoundUpHalf | src/spider/stats.rs:217 | the non-negative half of that rounding: a multiple of 0.001 in (x − 0.0005, x + 0.0005] |
| SpiderStats.StringKeyed | src/spider/stats.rs:212-216 | every status code appears under its decimal text with its count, and every key is the text of some code |
| SpiderStats.SnapshotRates | src/spider/stats.rs:185-200 | for consistent counters both rates are in [0, 1]; the error rate is 1 − successes/total; an empty window reports zero rates and zero average latency |
| SpiderStats.EmptyWindowSnapshot | src/spider/stats.rs:185-200 | a snapshot of a fresh window has zero rates, zero total, zero average and an empty histogram |
| SpiderStats.RunTestTcp | src/spider/stats.rs:270-284 | an address that is not an IP literal fails with a parse error; a failed dial fails; otherwise the dial's elapsed microseconds |
| SpiderStats.HostDelayMs | src/spider/stats.rs:51-57 | a failed probe counts as the 3 s timeout, 3000 ms; a successful one is its microseconds / 1000 |
| SpiderStats.PingMapEntries | src/spider/stats.rs:47-60 | the map built over a host list has an entry for exactly the listed hosts; each probe position has its own dial answer, and a host listed more than once keeps the delay of its last probe (`LastIndex`), as the later `insert` overwrites the earlier |
| SpiderStats.HostPingEntries | src/spider/stats.rs:45-60 | the meaning of `HostPing`: without a host list the map is empty; with one, exactly the listed hosts have entries, taken from each host's last probe: 3000 ms for a host not an IP literal or whose dial failed, the measured time otherwise, so every latency is non-negative |
| SpiderStats.ProbeHosts | src/spider/stats.rs:47-60 | the probing loop, dialling once per position, builds exactly the host-latency map `HostPing` describes |
| SpiderStats.InnerStats.constructor | src/spider/stats.rs:100-115 | the new object's counters are `Fresh(now)` |
| SpiderStats.InnerStats.UpdateStats | src/spider/stats.rs:118-164 | updates the fields in place to `Recorded` of the old counters and keeps the invariant |
| SpiderStats.InnerStats.CountRequestStep | src/spider/stats.rs:125-142 | the outcome-independent half of the update, in place |
| SpiderStats.InnerStats.CountOutcomeStep | src/spider/stats.rs:144-163 | the outcome counter update, in place |
| SpiderStats.RequestStats.constructor | src/spider/stats.rs:17-21 | a fresh inner window |
| SpiderStats.RequestStats.UpdateStats | src/spider/stats.rs:24-34 | the inner counters become `Recorded` of the old ones; the object's invariant (consistent counters) is required and kept |
| SpiderStats.RequestStats.ToStatsAndReset | src/spider/stats.rs:38-70 | the result is `ToStats` of the old counters with `HostPing` attached, and the inner object is replaced by a fresh one whose init and start time are both the reset reading |
| SpiderStats.RequestStats.Reset | src/spider/stats.rs:67 | `*data = InnerStats::new()`: a newly allocated fresh window |
| SpiderMod.InitStep | src/spider/mod.rs:34-36 | `init` on an empty cell stores the value and succeeds; on a set cell it fails with the value and keeps the cell |
| SpiderMod.InitAll | src/spider/mod.rs:34-36 | one result per `init` call |
| SpiderMod.InitAllWhenSet | src/spider/mod.rs:34-36 | once set, every further `init` fails with its own value and the cell keeps its content |
| SpiderMod.FirstInitWins | src/spider/mod.rs:29-41 | from `new()`, the first `init` succeeds, every later one fails, and the cell holds the first value |
| SpiderMod.Global.constructor | src/spider/mod.rs:29-31 | `Global::new` is empty |
| SpiderMod.Global.Get | src/spider/mod.rs:39-41 | the cell's content; `Init`, `IsInitialized` and `Deref` are stated in terms of it |
| SpiderMod.Global.Init | src/spider/mod.rs:34-36 | the cell and result are `InitStep` of the old cell: set once, then rejected with the value handed back |
| SpiderMod.Global.IsInitialized | src/spider/mod.rs:44-46 | holds iff `get` is Some |
| SpiderMod.Global.Deref | src/spider/mod.rs:18-24 | defined only on a set cell, where it is the value `get` returns |
| SpiderMod.HostInfo | src/spider/mod.rs:76-82 | a supplier error gives None; success gives Some((hosts, host_test_port)) |
| SpiderMod.InitSpiderVars | src/spider/mod.rs:57-87 | builds the channel with one worker per target; fails if the push cell is already set, then if the host cell is already set, leaving later cells untouched; otherwise both cells are set and the result is Ok |
| SpiderMod.RecordBatch | src/spider/mod.rs:90-97 | the spider's `update_stats` calls of one cycle, in order: the counters become `RecordAll` of the old ones over the batch, and stay consistent |
| SpiderMod.SendStats | src/spider/mod.rs:100-114 | the message is the encoding of `ToStats` of the old counters with the host latencies, the window is replaced by a fresh one, and the report reaches every live receiver (none when there are none, the failure only logged) |
| SpiderMod.ReportsMatch | src/spider/mod.rs:73-84 | each report of `Reports` is the encoded snapshot of its cycle's `Window` (the window opened for that cycle — the counters held on entry for the first, a fresh window from the previous reset for each later one — with the requests recorded during the cycle), built with the host list recorded for that cycle, that cycle's probe answers, end time and resources |
| SpiderMod.CycleSnapshot | src/spider/mod.rs:73-84 | the snapshot behind report k > 0 counts exactly the requests recorded during cycle k: its total, cache hits and errors are those of the cycle's batch, its period starts at the previous reset, its runtime runs from that reset (`*data = InnerStats::new()` resets the init time too), and a cycle without requests reports zero rates |
| SpiderMod.ReportRound | src/spider/mod.rs:73-97 | one cycle: the cycle's requests are recorded, then report k (per `Reports`) and that cycle's `HostInfo` are appended to what the earlier cycles produced, and a fresh window for cycle k + 1 is in place |
| SpiderMod.ReportLoop | src/spider/mod.rs:73-84 | one report per cycle, each cycle's host list being `HostInfo` of that cycle's supplier answer, so a failing supplier still gets a report; report k is `CycleReport`: the encoded snapshot of the window it closes, holding the requests recorded during cycle k, at that cycle's end time, with its resources and host latencies; the window after the last cycle is fresh |
| SpiderPush.SendResult | src/spider/push.rs:110-116 | a send bounded by 2 s: too slow gives a timeout error, a failure gives a send error, otherwise none |
| SpiderPush.Start | src/spider/push.rs:85-86 | a session opens with the heartbeat at the start time, nothing sent, alive |
| SpiderPush.Alive | src/spider/push.rs:107 | the last inbound frame is less than 60 000 ms old |
| SpiderPush.Step | src/spider/push.rs:92-129 | one `select!` turn. An inbound frame refreshes the heartbeat and nothing else. The stream's end, and only it, gives Ok; a stream error or a receive error gives the matching Err. A tick with the last inbound frame ≥ 60 000 ms old fails with heartbeat timeout; a tick survives only if the heartbeat was fresh before and after its ping and the ping was sent in time. A report survives iff its send succeeds, and otherwise fails with the send's error. A surviving session appends the event's frames and the heartbeat is kept |
| SpiderPush.Run | src/spider/push.rs:81-131 | the frames sent are always a prefix of those the events ask for; while open, all of them in order, and `last_heartbeat` is the time of the last inbound frame, or the start |
| SpiderPush.OpenPrefix | src/spider/push.rs:92-130 | a session open after a trace was open after every prefix of it |
| SpiderPush.ClosedAbsorbs | src/spider/push.rs:95-127 | once returned, later events change nothing |
| SpiderPush.HeartbeatEnforced | src/spider/push.rs:107 | a tick with the last inbound frame ≥ 60 000 ms old ends the session with heartbeat timeout and sends nothing |
| SpiderPush.LivenessAtTick | src/spider/push.rs:105-117 | a session still open after a tick passed both heartbeat checks and its ping finished within 2 s |
| SpiderPush.OkOnlyAtStreamEnd | src/spider/push.rs:99-102 | a session ends with Ok only if the inbound stream ended |
| SpiderPush.HandleEvent | src/spider/push.rs:94-128 | one arm of the loop updates the heartbeat, the frames sent and the outcome as `Step` does |
| SpiderPush.ProcessEvents | src/spider/push.rs:81-131 | consumes events until the session returns; the frames sent and the outcome are those of `Run` on the consumed prefix, the session was open before the last consumed event, and the whole trace ends the same way |
| SpiderPush.ReconnectDelay | src/spider/push.rs:53-77 | 3000 ms after a failed connect; 500 ms after a session that returned, Ok or Err; none while the session stays open |
| SpiderPush.PushLoop | src/spider/push.rs:44-79 | the loop only stops inside a session that never returns; every earlier attempt is followed by its reconnect delay |
| SpiderPush.Broadcast.constructor | src/spider/push.rs:27 | a channel of the given capacity with no live receiver |
| SpiderPush.Broadcast.Subscribe | src/spider/push.rs:39 | one more live receiver |
| SpiderPush.Broadcast.Send | src/spider/mod.rs:111-113 | fails with the message iff no receiver is live, else reaches them all |
| SpiderPush.InitWebsocket | src/spider/push.rs:37-42 | one subscription and one worker per target, in order |
| SpiderPush.LoadBroadcastChan | src/spider/push.rs:25-35 | a fresh channel of capacity 10; no workers for an empty target list, one per target otherwise |
| NotifyTg.DebugText | src/notify/tg.rs:91-101 | "消息： " + body for a message, "文件： " + path for a file |
| NotifyTg.DebugTextInjective | src/notify/tg.rs:91-101 | distinct items have distinct `Debug` texts |
| NotifyTg.Suppressible | src/notify/tg.rs:47 | a message whose body contains "timed out" |
| NotifyTg.ForwardStep | src/notify/tg.rs:45-78 | a "timed out" message raises the counter and is attempted only when it reaches 100, resetting it to 0; other messages get a timed attempt, files a blocking one, and neither touches the counter |
| NotifyTg.Forward | src/notify/tg.rs:42-80 | the forwarder over a sequence of items, one `ForwardStep` each; its counts are `ForwardCounts` |
| NotifyTg.ForwardCounts | src/notify/tg.rs:42-80 | from a counter below 100, the final counter is (counter + matches) mod 100 and the attempts are the others plus (counter + matches) div 100 |
| NotifyTg.CounterBounded | src/notify/tg.rs:42-80 | between items the counter stays within 0..99 |
| NotifyTg.MatchingAll | src/notify/tg.rs:47 | in a run of "timed out" messages every one matches |
| NotifyTg.SuppressedRun | src/notify/tg.rs:42-50 | k "timed out" messages in a row give floor(k/100) attempts, at the 100th, 200th, … |
| NotifyTg.ForwardLoop | src/notify/tg.rs:42-80 | the loop makes exactly the attempts of `Forward`, others + matches div 100 of them |
| NotifyTg.ParseSubscribers | src/notify/tg.rs:145-152 | all subscribers parse as i64 iff the result is Ok, which then holds them in order; otherwise the index of the first that does not parse |
| NotifyTg.NewTgBot | src/notify/tg.rs:142-155 | `TgBot::new` keeps token and debug flag and one chat id per subscriber, each the subscriber parsed as i64, in order, and panics (Err, with the index of the first bad one) exactly when some subscriber is not an integer |
| NotifyTg.EmptySubscriberPanics | src/lib.rs:27-31 | the configuration of the `test_tg` test, one empty subscriber, makes `TgBot::new` panic at index 0 |
| NotifyTg.Notify | src/notify/tg.rs:171-184 | in debug mode no sends; otherwise the text once per subscriber, in order |
| NotifyTg.NotifyFile | src/notify/tg.rs:223-237 | in debug mode no sends; otherwise the file once per subscriber, in order |
| NotifyTg.NotifyWithButton | src/notify/tg.rs:188-220 | the body is commented out: no sends in either mode |
| NotifyTg.Dispatch | src/notify/tg.rs:31-36 | the worker notifies a message and sends a file as a document |
| ToolMod.MatchedPrefix | src/tool/mod.rs:11 | the length removed by `trim_start_matches("1000")` lies within the input |
| ToolMod.LeadingRun | src/tool/mod.rs:11 | the length removed by `trim_start_matches('0')` lies within the input |
| ToolMod.TrailingRun | src/tool/mod.rs:14 | the length removed by `trim_end_matches(c)` lies within the input |
| ToolMod.TrimStartMatches | src/tool/mod.rs:11 | `trim_start_matches("1000")`: no longer than the input and no longer starting with the pattern |
| ToolMod.TrimStartChar | src/tool/mod.rs:11 | `trim_start_matches('0')`: no longer than the input and not starting with the character |
| ToolMod.TrimEndChar | src/tool/mod.rs:14 | `trim_end_matches(c)`: no longer than the input and not ending with the character |
| ToolMod.TrimStartMatchesSpec | src/tool/mod.rs:11 | what was removed is whole copies of the pattern, and the rest no longer starts with it |
| ToolMod.TrimStartCharSpec | src/tool/mod.rs:11 | only the character was removed, and the rest does not start with it |
| ToolMod.TrimEndCharSpec | src/tool/mod.rs:14 | only the character was removed, and the rest does not end with it |
| ToolMod.StemStart | src/tool/mod.rs:11 | the start of the text left after the leading trims lies within the input |
| ToolMod.Stem | src/tool/mod.rs:11 | the text left after the leading trims: a suffix of the input that does not start with '0' |
| ToolMod.TailEnd | src/tool/mod.rs:13-16 | the end of the kept text lies within the stem |
| ToolMod.TrimEnd | src/tool/mod.rs:10-18 | the result's end lies between the stem start and the input's end |
| ToolMod.BaseTrim | src/tool/mod.rs:10-18 | `base_trim`: a prefix of the stem, so never starting with '0'; when the stem ends in "000" it does not end in '1' |
| ToolMod.BaseTrimIsSlice | src/tool/mod.rs:10-18 | `base_trim` returns the contiguous slice of its input between the stem start and the trimmed end |
| ToolMod.BaseTrimKeepsStem | src/tool/mod.rs:15-16 | when the stem does not end in "000" it is returned unchanged |
| ToolMod.BaseTrimCutsTail | src/tool/mod.rs:13-14 | a stem ending in "000" loses its trailing zeros, then its trailing ones: the result is a prefix of the stem that does not end in '1', and everything cut is '0' or '1' |
| ToolMod.BaseTrimKeepsPlain | src/tool/mod.rs:10-18 | a symbol with no leading '0' or "1000" block and no trailing "000" is returned unchanged |
| ToolMod.BaseTrimStripsScale | src/lib.rs:14-16 | such a symbol (not starting with '1') behind "1000", "10000" or "1000000" comes back bare |
| ToolMod.BaseTrimThousand | src/lib.rs:14 | "1000XXXUSDT" gives "XXXUSDT" |
| ToolMod.BaseTrimTenThousand | src/lib.rs:15 | "10000XXXUSDT" gives "XXXUSDT" |
| ToolMod.BaseTrimMillion | src/lib.rs:16 | "1000000XXXUSDT" gives "XXXUSDT" |
| ToolMod.BaseTrimKeepsMillionAlias | src/tool/mod.rs:10-18 | as written, "1MXXXUSDT" comes back unchanged, not "XXXUSDT" as src/lib.rs:17 expects |
| ToolMod.BaseTrimMillionAliasSuffix | src/tool/mod.rs:10-18 | as written, "1M0000XXXUSDT10000" gives "1M0000XXXUSDT", not "XXXUSDT" as src/lib.rs:20 expects |
| ToolMod.BaseTrimWithAlias | src/lib.rs:17-20 | the corrected rule: never longer than the input and never starting with '0' |
| ToolMod.BaseTrimWithAliasSpec | src/lib.rs:14-16 | the corrected rule agrees with `base_trim` on every symbol without the "1M" prefix |
| ToolMod.StripAlias | src/lib.rs:17-20 | the corrected rule strips a leading "1M" and then applies `base_trim` |
| ToolMod.PlainSymbolKept | src/lib.rs:14-20 | a symbol like "XXXUSDT" has no leading '0', no "1000" block and no trailing "000" |
| ToolMod.AliasThousand | src/lib.rs:14 | corrected rule: "1000" + symbol gives the symbol |
| ToolMod.AliasTenThousand | src/lib.rs:15 | corrected rule: "10000" + symbol gives the symbol |
| ToolMod.AliasMillion | src/lib.rs:16 | corrected rule: "1000000" + symbol gives the symbol |
| ToolMod.AliasBare | src/lib.rs:17-18 | corrected rule: "1M" + symbol and "1M10000" + symbol give the symbol |
| ToolMod.AliasZeros | src/lib.rs:19-20 | corrected rule: "1M0000" + symbol, with or without "10000" behind, gives the symbol |
| ToolMod.AliasZerosSuffix | src/lib.rs:20 | corrected rule: "1M0000" + symbol + "10000" gives the symbol |
| ToolRemoveList.StringSet.constructor | src/tool/remove_list.rs:87-88 | `HashSet::new` is empty |
| ToolRemoveList.StringSet.Insert | src/tool/remove_list.rs:77 | the set gains the element |
| ToolRemoveList.HashSetMerge | src/tool/remove_list.rs:75-79 | target becomes old target ∪ source |
| ToolRemoveList.AttemptError | src/tool/remove_list.rs:107-118 | an attempt fails on an HTTP error (with its reason) or an empty body, and succeeds otherwise |
| ToolRemoveList.FirstGood | src/tool/remove_list.rs:106-121 | the first of the attempts that returns a non-empty body, every earlier one having failed; None when all fail |
| ToolRemoveList.MergeSpec | src/tool/remove_list.rs:103-125 | Ok iff `retry` is 0 or some attempt succeeds; then the set gains exactly the entries of the first good attempt's body; after `retry` failures the last attempt's error with the set unchanged; the set only grows |
| ToolRemoveList.Merge | src/tool/remove_list.rs:103-125 | the retry loop returns and leaves the set as `MergeSpec` says |
| ToolRemoveList.BlackUrls | src/tool/remove_list.rs:91-93 | the black URLs of the configs, in order, configs without one skipped |
| ToolRemoveList.WhiteUrls | src/tool/remove_list.rs:94-96 | the white URLs of the configs, in order, configs without one skipped |
| ToolRemoveList.MergeOptional | src/tool/remove_list.rs:91-96 | an absent URL merges nothing and succeeds |
| ToolRemoveList.Collect | src/tool/remove_list.rs:90-99 | merges of the URLs one after another, stopping at the first error |
| ToolRemoveList.LoadAll | src/tool/remove_list.rs:83-100 | `load_all_list` over the configs; its meaning is `LoadAllSeparates` and `LoadAllAborts` |
| ToolRemoveList.LoadAllSeparates | src/tool/remove_list.rs:90-99 | on success the blacklist is collected from the black URLs only and the whitelist from the white URLs only, in order, missing URLs skipped |
| ToolRemoveList.LoadAllAborts | src/tool/remove_list.rs:92-95 | after the first failed merge later configs change nothing |
| ToolRemoveList.LoadAllList | src/tool/remove_list.rs:83-100 | the loop with `?` on each merge returns exactly `LoadAll` |
| ToolRemoveList.MatchingOps | src/tool/remove_list.rs:67-70 | exactly the configs with the rule id, repeats included, each as often as in the list |
| ToolRemoveList.LoadMatchList | src/tool/remove_list.rs:62-72 | `load_all_list` over the matching configs |
| ToolRemoveList.LoadMatchListAndMerge | src/tool/remove_list.rs:47-58 | on success both loaded sets are merged into their targets; on failure neither target changes |
| ToolRemoveList.UrlCall | src/tool/remove_list.rs:34-45 | max(call_count, 0) rounds, each requesting every target URL once with every "{}" replaced by the message |
| ToolRemoveList.Substitute | src/tool/remove_list.rs:38 | `url.replace("{}", msg)` |
| ToolRemoveList.SubstituteWithoutPlaceholder | src/tool/remove_list.rs:38 | a URL without "{}" is requested as written |
| ToolRemoveList.SubstituteFirstPlaceholder | src/tool/remove_list.rs:38 | the message takes the place of the first "{}": the text before it is kept, and the text after it is substituted in turn |
| ToolTyp.U64AsI64 | src/tool/typ.rs:45-50 | `as i64` keeps values below 2^63 and maps the rest to negatives, congruent mod 2^64 |
| ToolTyp.U64AsI64Unique | src/tool/typ.rs:49 | the only i64 congruent to the u64 mod 2^64 is the cast |
| ToolTyp.MyI64From | src/tool/typ.rs:32-75 | i64 as is; i32 and u32 widened; u64 kept below 2^63 and cast to its two's-complement reading above; a string its `parse::<i64>` value, 0 when it does not parse; every other shape rejected with "an integer or a string" |
| ToolTyp.MyI64FromLargeU64 | src/tool/typ.rs:45-50 | a u64 ≥ 2^63 becomes negative, 2^64 less |
| ToolTyp.MyI64FromShownInt | src/tool/typ.rs:65-72 | the decimal text of an i64 decodes to it |
| ToolTyp.MyI64FromSignedOrPadded | src/tool/typ.rs:65-72 | digits, "+" and digits, and zero-padded digits all decode to the same number |
| ToolTyp.MyI64FromBadString | src/tool/typ.rs:69 | text that does not parse decodes to 0, not an error |
| ToolTyp.MyI64FromEmptyString | src/tool/typ.rs:69 | the empty string decodes to 0 |
| ToolTyp.MyDecimalFrom | src/tool/typ.rs:96-111 | a non-string is rejected; "" gives 0; parseable text its value; other text the error "Parse error" |
| ToolTyp.Trunc | src/tool/typ.rs:120 | dropping the fraction moves toward zero by less than 1 |
| ToolTyp.DecimalToI64 | src/tool/typ.rs:120 | Some exactly when the truncated value fits in an i64 |
| ToolTyp.SerializeDecimalToI64 | src/tool/typ.rs:116-121 | the truncated value when it fits, else 0 |
| ToolTyp.SerializeDecimalToI64Bounded | src/tool/typ.rs:116-121 | the written integer has the decimal's sign and is no farther from zero than the decimal |
| ToolTyp.SerializeDecimalToF64 | src/tool/typ.rs:125-130 | the converted float, 0 when there is none |
| ToolHosts.WordLength | src/tool/hosts.rs:26 | the leading non-whitespace run; the character after it, if any, is ASCII whitespace |
| ToolHosts.SplitAsciiWhitespace | src/tool/hosts.rs:26 | every piece is non-empty and free of ASCII whitespace |
| ToolHosts.SplitKeepsText | src/tool/hosts.rs:26 | the pieces together are the text with the ASCII whitespace taken out, in order |
| ToolHosts.SplitJoinRoundTrip | src/tool/hosts.rs:26 | splitting words joined by spaces gives the words back |
| ToolHosts.SplitOfWhitespace | src/tool/hosts.rs:26 | text made only of ASCII whitespace splits into nothing |
| ToolHosts.LeadingWs | src/tool/hosts.rs:27 | the leading Unicode whitespace run of `trim` |
| ToolHosts.TrailingWs | src/tool/hosts.rs:27 | the trailing Unicode whitespace run of `trim` |
| ToolHosts.TrimSpec | src/tool/hosts.rs:27 | `trim` gives a slice with no whitespace at either end, empty for all-whitespace, unchanged when none at the ends |
| ToolHosts.TrimKeepsNoAsciiWs | src/tool/hosts.rs:26-27 | trimming a piece keeps it free of ASCII whitespace |
| ToolHosts.SplitTxt | src/tool/hosts.rs:19-35 | a JSON array of strings is returned as parsed; other text goes to the whitespace fallback |
| ToolHosts.IsAsciiWs | src/tool/hosts.rs:26 | the whitespace `split_ascii_whitespace` splits on: space, tab, line feed, form feed, carriage return |
| ToolHosts.IsUnicodeWs | src/tool/hosts.rs:27 | the whitespace `trim` removes: the Unicode White_Space characters |
| ToolHosts.Trim | src/tool/hosts.rs:27 | `trim`; its meaning is `TrimSpec` |
| ToolHosts.TrimNonEmpty | src/tool/hosts.rs:27-28 | each piece trimmed, empty ones dropped; its meaning is `TrimNonEmptyShape` |
| ToolHosts.SplitWords | src/tool/hosts.rs:24-33 | the whitespace fallback of `split_txt`; its meaning is `SplitWordsShape` and `SplitWordsIsSplit` |
| ToolHosts.TrimNonEmptyShape | src/tool/hosts.rs:27-28 | after trimming and filtering, every element is non-empty, has no ASCII whitespace and no whitespace at either end |
| ToolHosts.SplitWordsShape | src/tool/hosts.rs:24-33 | no word of the fallback is empty, holds ASCII whitespace, or starts or ends with whitespace |
| ToolHosts.TrimNonEmptyOfWhitespace | src/tool/hosts.rs:27-28 | pieces of whitespace only all vanish |
| ToolHosts.SplitPiecesFromText | src/tool/hosts.rs:26 | every character of every piece is a character of the text |
| ToolHosts.SplitWordsOfWhitespace | src/tool/hosts.rs:24-33 | non-JSON text made only of whitespace gives an empty list |
| ToolHosts.TrimNonEmptyOfWords | src/tool/hosts.rs:27-28 | pieces without whitespace pass trimming and filtering unchanged |
| ToolHosts.SplitWordsIsSplit | src/tool/hosts.rs:24-33 | when the only whitespace in the text is ASCII, the fallback is exactly the ASCII split, in order |
| ToolHosts.HostSourceOf | src/tool/hosts.rs:12-17 | the URL branch, with a 30 000 ms timeout, iff the path starts with "http"; the file branch otherwise |
| ToolTg.NewTgBot | src/tool/tg.rs:63-69 | the subscriber list and debug flag of the configuration, verbatim |
| ToolTg.NewWithBot | src/tool/tg.rs:70-76 | the given subscriber list and debug flag, verbatim |
| ToolTg.Row | src/tool/tg.rs:111-117 | one callback button per (label, data) pair, in order |
| ToolTg.KeyboardOf | src/tool/tg.rs:109-118 | the keyboard the chunking loop builds; its shape is `KeyboardShape` and `KeyboardFlattens` |
| ToolTg.KeyboardShape | src/tool/tg.rs:109-118 | ceil(n/3) rows, none for no buttons, every row but the last holding 3, the last 1 to 3 |
| ToolTg.KeyboardFlattens | src/tool/tg.rs:109-118 | the rows one after another give every button, in the given order |
| ToolTg.BuildKeyboard | src/tool/tg.rs:109-118 | the chunking loop builds exactly `KeyboardOf` |
| ToolTg.Fanout | src/tool/tg.rs:87-94 | one request per subscriber, in list order |
| ToolTg.Notify | src/tool/tg.rs:79-96 | debug: no sends; otherwise the text to every subscriber in order, whatever the answers |
| ToolTg.NotifyWithButton | src/tool/tg.rs:101-130 | debug: no sends; otherwise the text with the three-per-row keyboard to every subscriber in order |
| ToolTg.Failures | src/tool/tg.rs:146-153 | the failed sends leave at most one error each, so there are never more errors than sends |
| ToolTg.FailuresExact | src/tool/tg.rs:133-156 | every send failed iff there are as many errors as sends, and none failed iff there are no errors |
| ToolTg.NotifyFile | src/tool/tg.rs:133-156 | debug: no sends; otherwise the file to every subscriber in order, each failure logged and the loop continued |
| ClientWebsocket.DefaultPort | src/client/websocket.rs:25-29 | 443 iff the scheme is "wss", 80 iff "ws", none otherwise (section 3 of RFC 6455) |
| ClientWebsocket.ResolvePort | src/client/websocket.rs:22-30 | an explicit port as written, else the scheme's default |
| ClientWebsocket.Addr | src/client/websocket.rs:32 | `format!("{}:{}", domain, port)`; its meaning is `AddrSplits` |
| ClientWebsocket.DialAddr | src/client/websocket.rs:17-32 | a request error is passed on; no host gives `NoHostName`; no port gives `UnsupportedUrlScheme`; otherwise "host:port" |
| ClientWebsocket.DialAddrDefaults | src/client/websocket.rs:22-30 | "wss" and "ws" URIs without a port dial 443 and 80; any other scheme is refused |
| ClientWebsocket.AddrSplits | src/client/websocket.rs:32 | the address is the host, one ':' and the port's digits, which read back as the port |
| ClientWebsocket.AddrInjective | src/client/websocket.rs:32 | different ports on one host give different addresses |

## Left out

- `get_system_resources` (sysinfo sampling) is not modelled. The sample is the parameter `sys`.
- Clock readings (`get_now_millis`, `Instant::now`) are parameters: `now`, `endTime`, `resetTime`, and the times carried by push events.
- i64 overflow of the statistics counters is not modelled. The counters are unbounded integers.
- SpiderStats.ToStats: the rates and latencies are exact reals, not f64. The three-decimal rounding is modelled, the binary floating-point error is not.
- The `Mutex` around `InnerStats`, threads, tokio tasks, the sleeps of `reporting_cycle` and `url_call`, and the `select!` arbitration are not modelled. The order of events in a push session is the input trace. The requests the spider records during reporting cycle k are the batch `batches(k)`, recorded before that cycle's report. The lock decides which window a request racing with a snapshot falls into, and the choice of batches stands for that decision.
- Sockets, HTTP, the Telegram API and WebSocket handshakes are parameters. These cover `req.rs`, `block_ws.rs`, `connect_ws_with_addr`, `connect_to_ws_with_timeout` (whose 2 s bound is the event `ConnectFailed`) and `get_boot`. File reading in `load_file_host` is left out; only the path dispatch is modelled.
- `into_client_request` (URL parsing) is not modelled. Its outcome is the input of `DialAddr`.
- JSON encoding and decoding (`serde_json`) are parameters, and so is `Decimal`'s text parsing.
- ToolTyp.DecimalToI64: `Decimal::to_i64` is assumed to truncate toward zero and to fail outside the i64 range. The library is not part of this model.
- `blacklist_detach`, used by `merge`, is not part of this model. It is the parameter `detach`.
- ToolRemoveList.Merge: the answer to a request depends only on the URL and the attempt number, so merging the same URL twice sees the same answers.
- ToolRemoveList.UrlCall: the requests are spawned tasks whose `unwrap` may panic. Only the URLs requested are modelled, not the panics or the one-second pauses.
- `aes.rs`, `libtime.rs`, `random.rs`, `file.rs`, `num.rs` and `price_ceiling.rs` are left out as library I/O, clock, randomness and float code.
- `Global<T>` of src/tool/typ.rs:133-165 has the same body as the one in src/spider/mod.rs, so the class `SpiderMod.Global` stands for both.
- SpiderMod.Global.Deref requires a set cell. On an empty cell the source's `deref` reads an uninitialised value, which is not modelled.
- src/spider/entity.rs writes the five identity fields of `Stats` inline. src/spider/stats.rs builds `Stats { base, .. }`, so the model groups them as `StatsBase`.
- SpiderStats.RequestStats.Reset: the assignment `*data = InnerStats::new()` is modelled as a newly allocated `InnerStats`.
- SpiderPush.LoadBroadcastChan: `init_websocket` runs in a spawned task (src/spider/push.rs:31), so its `subscribe` calls (src/spider/push.rs:39) may not yet have run when `load_broadcast_chan` returns. The model makes them before returning. Its `receivers == |targets|`, and the same clause of SpiderMod.InitSpiderVars, describe the channel once that task has subscribed. Until then the channel may have no receiver, and a first `send_stats` would find none and only log the failure.
- `load_tg`'s timed hand-overs (10 µs `send_timeout`) may fail on timing. The model lists the attempts, not which of them were delivered.
- The sys-info and host supplier's own errors are carried as text; the error text and log lines are not modelled.

## Findings

| source | as written | input that shows it | evidently intended | confidence | as-written member | corrected member |
|---|---|---|---|---|---|---|
| src/tool/mod.rs:10-18 | `base_trim` strips only "1000" blocks, leading zeros and a "…1000"-style tail; the "1M" alias prefix survives | `"1MXXXUSDT"` comes back as `"1MXXXUSDT"`, and `"1M0000XXXUSDT10000"` as `"1M0000XXXUSDT"`, while src/lib.rs:17 and 20 expect `"XXXUSDT"` | a leading "1M" is an alias too (src/lib.rs:12 lists it with the others) and is removed before the other rules, as src/lib.rs:17-20 expect | medium, not executed | ToolMod.BaseTrimKeepsMillionAlias | ToolMod.BaseTrimWithAlias |

The as-written behaviour is `ToolMod.BaseTrim`, and every property above is
proved about it. `ToolMod.BaseTrimMillionAliasSuffix` is a second
counterexample. `ToolMod.BaseTrimWithAlias` removes a leading "1M" first.
`ToolMod.AliasThousand`, `AliasTenThousand`, `AliasMillion`, `AliasBare` and
`AliasZeros` prove every expectation of src/lib.rs:14-20 for it, for any
symbol shaped like "XXXUSDT". `ToolMod.BaseTrimWithAliasSpec` proves that it
agrees with `base_trim` on every other symbol.
