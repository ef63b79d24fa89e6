/**
 * The request-statistics aggregator (src/spider/stats.rs).
 *
 * `InnerStats` holds the counters of one reporting window and is updated in
 * place by `UpdateStats`; `RequestStats` owns one `InnerStats` and, when a
 * report is taken, probes the hosts, builds the snapshot and swaps in a fresh
 * `InnerStats`. The counters' abstract value is a `WindowCounters` record;
 * `Recorded` and `ToStats` are the specifications of an update and of a
 * snapshot, and the lemmas below are about them.
 *
 * The clock is a parameter (`now`, `endTime`, `resetTime`), and so are the TCP
 * probes (`isIp`, and `probes`, the answer of each dial by its position in the
 * host list) and the system-resource sample (`sys`).
 */
module SpiderStats {
  import opened Wrappers
  import opened Num
  import opened SpiderEntity

  /** The probe timeout, 3 s, in microseconds: the latency recorded for a host that cannot be reached. */
  const ProbeTimeoutMicros: nat := 3_000_000

  /** The fields of an `InnerStats`. */
  datatype WindowCounters = WindowCounters(
    initTime: int,
    startTime: int,
    totalRequests: int,
    successfulRequests: int,
    cacheHit: int,
    parseErrors: int,
    timeoutErrors: int,
    connectionErrors: int,
    httpStatusCodes: map<U16, int>,
    totalLatency: int,
    averageLatency: real)

  /** Mean of a total over a count, 0 for an empty count. */
  function Average(total: int, count: int): real
  {
    if count == 0 then 0.0 else total as real / count as real
  }

  /**
   * What every reachable counter set satisfies: every request has exactly one
   * outcome, cache hits are successes, status code 0 is never counted, and the
   * running average matches the totals.
   */
  predicate Consistent(c: WindowCounters)
    ensures Consistent(c) ==> 0 <= c.successfulRequests <= c.totalRequests
    ensures Consistent(c) && c.totalRequests == 0 ==> c.successfulRequests == 0 && c.averageLatency == 0.0
  {
    && c.totalRequests == c.successfulRequests + c.parseErrors + c.timeoutErrors + c.connectionErrors
    && 0 <= c.cacheHit <= c.successfulRequests
    && c.parseErrors >= 0 && c.timeoutErrors >= 0 && c.connectionErrors >= 0
    && 0 !in c.httpStatusCodes
    && (forall code :: code in c.httpStatusCodes ==> c.httpStatusCodes[code] >= 1)
    && c.averageLatency == Average(c.totalLatency, c.totalRequests)
  }

  /** The counters of `InnerStats::new()` at clock reading `now`. */
  function Fresh(now: int): (c: WindowCounters)
    ensures Consistent(c)
    ensures c.initTime == now && c.startTime == now
    ensures c.totalRequests == 0 && c.httpStatusCodes == map[]
  {
    WindowCounters(now, now, 0, 0, 0, 0, 0, 0, map[], 0, 0.0)
  }

  /** The counters after `update_stats(requestTime, responseTime, statusCode, result)`. */
  function Recorded(c: WindowCounters, requestTime: int, responseTime: int, statusCode: U16, result: RequestResult): (r: WindowCounters)
    requires c.totalRequests >= 0
    ensures Consistent(c) ==> Consistent(r)
    ensures r.totalRequests == c.totalRequests + 1
    ensures r.totalLatency == c.totalLatency + (responseTime - requestTime)
    ensures r.initTime == c.initTime && r.startTime == c.startTime
    ensures r.successfulRequests == c.successfulRequests + (if result.IsSuccess() then 1 else 0)
    ensures r.cacheHit == c.cacheHit + (if result.IsCacheHit() then 1 else 0)
    ensures r.parseErrors == c.parseErrors + (if result == ParseError then 1 else 0)
    ensures r.timeoutErrors == c.timeoutErrors + (if result == TimeoutError then 1 else 0)
    ensures r.connectionErrors == c.connectionErrors + (if result == ConnectionError then 1 else 0)
    ensures statusCode == 0 ==> r.httpStatusCodes == c.httpStatusCodes
    ensures statusCode != 0 ==> r.httpStatusCodes.Keys == c.httpStatusCodes.Keys + {statusCode}
    ensures statusCode != 0 ==> r.httpStatusCodes[statusCode] == 1 + (if statusCode in c.httpStatusCodes then c.httpStatusCodes[statusCode] else 0)
    ensures forall code :: code in c.httpStatusCodes && code != statusCode ==> r.httpStatusCodes[code] == c.httpStatusCodes[code]
  {
    CountOutcome(CountRequest(c, requestTime, responseTime, statusCode), result)
  }

  /**
   * The part of `update_stats` every request goes through: total, latency,
   * average and status histogram. The average again matches the totals, the
   * outcome counters are untouched, and a histogram without code 0 or zero
   * counts stays so.
   */
  function CountRequest(c: WindowCounters, requestTime: int, responseTime: int, statusCode: U16): (r: WindowCounters)
    requires c.totalRequests >= 0
    ensures r.totalRequests == c.totalRequests + 1
    ensures r.averageLatency == Average(r.totalLatency, r.totalRequests)
    ensures r.(totalRequests := c.totalRequests, totalLatency := c.totalLatency, averageLatency := c.averageLatency,
               httpStatusCodes := c.httpStatusCodes) == c
    ensures 0 !in c.httpStatusCodes ==> 0 !in r.httpStatusCodes
    ensures (forall code :: code in c.httpStatusCodes ==> c.httpStatusCodes[code] >= 1) ==>
              forall code :: code in r.httpStatusCodes ==> r.httpStatusCodes[code] >= 1
  {
    var total := c.totalRequests + 1;
    var latency := c.totalLatency + (responseTime - requestTime);
    var codes :=
      if statusCode == 0 then c.httpStatusCodes
      else c.httpStatusCodes[statusCode := (if statusCode in c.httpStatusCodes then c.httpStatusCodes[statusCode] else 0) + 1];
    c.(totalRequests := total, totalLatency := latency,
       averageLatency := latency as real / total as real, httpStatusCodes := codes)
  }

  /**
   * The part of `update_stats` that depends on the outcome: exactly one of
   * the four outcome counters is raised, by one, the cache-hit counter with
   * it for a cache hit, and nothing else changes.
   */
  function CountOutcome(c: WindowCounters, result: RequestResult): (r: WindowCounters)
    ensures r.successfulRequests + r.parseErrors + r.timeoutErrors + r.connectionErrors
            == c.successfulRequests + c.parseErrors + c.timeoutErrors + c.connectionErrors + 1
    ensures r.successfulRequests >= c.successfulRequests && r.parseErrors >= c.parseErrors
    ensures r.timeoutErrors >= c.timeoutErrors && r.connectionErrors >= c.connectionErrors
    ensures r.cacheHit == c.cacheHit + (if result.IsCacheHit() then 1 else 0)
    ensures r.(successfulRequests := c.successfulRequests, cacheHit := c.cacheHit, parseErrors := c.parseErrors,
               timeoutErrors := c.timeoutErrors, connectionErrors := c.connectionErrors) == c
  {
    match result
    case Successful => c.(successfulRequests := c.successfulRequests + 1)
    case SuccessfulAndCache => c.(successfulRequests := c.successfulRequests + 1, cacheHit := c.cacheHit + 1)
    case ParseError => c.(parseErrors := c.parseErrors + 1)
    case TimeoutError => c.(timeoutErrors := c.timeoutErrors + 1)
    case ConnectionError => c.(connectionErrors := c.connectionErrors + 1)
  }

  /** The arguments of one `update_stats` call. */
  datatype Record = Record(requestTime: int, responseTime: int, statusCode: U16, result: RequestResult)

  /** The counters after a sequence of `update_stats` calls, in order. */
  function RecordAll(c: WindowCounters, rs: seq<Record>): (r: WindowCounters)
    requires c.totalRequests >= 0
    ensures r.totalRequests == c.totalRequests + |rs|
    decreases |rs|
  {
    if |rs| == 0 then c
    else
      var last := rs[|rs| - 1];
      Recorded(RecordAll(c, rs[..|rs| - 1]), last.requestTime, last.responseTime, last.statusCode, last.result)
  }

  /** How many of the records satisfy p. */
  function CountWhere(rs: seq<Record>, p: RequestResult -> bool): nat
    decreases |rs|
  {
    if |rs| == 0 then 0 else CountWhere(rs[..|rs| - 1], p) + (if p(rs[|rs| - 1].result) then 1 else 0)
  }

  /** Sum of response − request over the records. */
  function LatencySum(rs: seq<Record>): int
    decreases |rs|
  {
    if |rs| == 0 then 0 else LatencySum(rs[..|rs| - 1]) + (rs[|rs| - 1].responseTime - rs[|rs| - 1].requestTime)
  }

  /**
   * Over any sequence of calls the counters count exactly the records of each
   * kind, the totals add up, and consistency is kept; from `Fresh` the
   * invariants of the design hold after every call.
   */
  lemma {:induction false} RecordAllCounts(c: WindowCounters, rs: seq<Record>)
    requires c.totalRequests >= 0
    ensures var r := RecordAll(c, rs);
      && r.totalRequests == c.totalRequests + |rs|
      && r.successfulRequests == c.successfulRequests + CountWhere(rs, (x: RequestResult) => x.IsSuccess())
      && r.cacheHit == c.cacheHit + CountWhere(rs, (x: RequestResult) => x.IsCacheHit())
      && r.parseErrors + r.timeoutErrors + r.connectionErrors
         == c.parseErrors + c.timeoutErrors + c.connectionErrors + CountWhere(rs, (x: RequestResult) => x.IsError())
      && r.totalLatency == c.totalLatency + LatencySum(rs)
      && r.initTime == c.initTime && r.startTime == c.startTime
      && (Consistent(c) ==> Consistent(r))
    decreases |rs|
  {
    if |rs| > 0 {
      RecordAllCounts(c, rs[..|rs| - 1]);
      OutcomeClassification(rs[|rs| - 1].result);
    }
  }

  /**
   * The snapshot `InnerStats::to_stats_and_reset` builds from the counters at
   * clock reading `endTime`, with `sys` the system-resource sample. The host
   * map is left empty here; `RequestStats.ToStatsAndReset` fills it.
   */
  function ToStats(c: WindowCounters, base: StatsBase, endTime: int, sys: SystemResources): (s: Stats)
    ensures s.base == base && s.systemResources == sys
    ensures s.timePeriod.start == c.startTime && s.timePeriod.end == endTime
    ensures s.exceptionTypes.connectionError == c.connectionErrors
    ensures s.exceptionTypes.timeoutError == c.timeoutErrors
    ensures s.exceptionTypes.parseError == c.parseErrors
    ensures s.totalRequests == c.totalRequests && s.cacheHit == c.cacheHit
    ensures c.totalRequests > 0 ==> s.errorRate * c.totalRequests as real == (c.parseErrors + c.timeoutErrors + c.connectionErrors) as real
    ensures c.totalRequests <= 0 ==> s.errorRate == 0.0
    ensures c.successfulRequests != 0 ==> s.cacheHitRate == RoundMillis(c.cacheHit as real / c.successfulRequests as real)
    ensures c.successfulRequests == 0 ==> s.cacheHitRate == 0.0
    ensures s.runtimeDuration == DivTrunc(endTime - c.initTime, 1000)
    ensures s.averageRequestLatency == RoundMillis(c.averageLatency)
    ensures s.httpStatusCodes == StringKeyed(c.httpStatusCodes)
    ensures s.hostsPingDelay == map[]
  {
    var errorRate :=
      if c.totalRequests > 0
      then (c.parseErrors + c.timeoutErrors + c.connectionErrors) as real / c.totalRequests as real
      else 0.0;
    var cacheHitRate :=
      if c.successfulRequests == 0 then 0.0 else RoundMillis(c.cacheHit as real / c.successfulRequests as real);
    Stats(
      base,
      TimePeriod(c.startTime, endTime),
      errorRate,
      ExceptionTypes(c.connectionErrors, c.timeoutErrors, c.parseErrors),
      DivTrunc(endTime - c.initTime, 1000),
      c.totalRequests,
      cacheHitRate,
      c.cacheHit,
      StringKeyed(c.httpStatusCodes),
      RoundMillis(c.averageLatency),
      map[],
      sys)
  }

  /**
   * `(x * 1000.0).round() / 1000.0` on exact numbers: the nearest multiple
   * of 0.001, halves rounded away from zero.
   */
  function RoundMillis(x: real): (r: real)
    ensures (r * 1000.0).Floor as real == r * 1000.0
    ensures -0.0005 <= r - x <= 0.0005
    ensures x >= 0.0 ==> -0.0005 < r - x
    ensures x >= 0.0 ==> 0.0 <= r && (x <= 1.0 ==> r <= 1.0)
    ensures x == 0.0 ==> r == 0.0
  {
    if x >= 0.0 then RoundUpHalf(x)
    else
      var q := RoundUpHalf(-x);
      var k := (q * 1000.0).Floor;
      assert (-q) * 1000.0 == (-k) as real;
      assert ((-k) as real).Floor == -k;
      -q
  }

  /** The nearest multiple of 0.001 to a non-negative number, halves rounded up. */
  function RoundUpHalf(x: real): (r: real)
    requires x >= 0.0
    ensures (r * 1000.0).Floor as real == r * 1000.0
    ensures -0.0005 < r - x <= 0.0005
    ensures 0.0 <= r && (x <= 1.0 ==> r <= 1.0)
    ensures x == 0.0 ==> r == 0.0
  {
    var y := x * 1000.0 + 0.5;
    var n := y.Floor;
    assert n as real <= y < n as real + 1.0;
    assert 0 <= n;
    assert x <= 1.0 ==> n <= 1000;
    var r := n as real / 1000.0;
    assert r * 1000.0 == n as real;
    r
  }

  /**
   * The status histogram with its codes printed in decimal
   * (`k.to_string()`): the same counts under the stringified keys, and no
   * other keys.
   */
  function StringKeyed(codes: map<U16, int>): (m: map<string, int>)
    ensures forall code :: code in codes ==> ShowNat(code) in m && m[ShowNat(code)] == codes[code]
    ensures forall key :: key in m ==> exists code :: code in codes && key == ShowNat(code)
  {
    KeyedBelowEntries(codes, 0x1_0000);
    KeyedBelow(codes, 0x1_0000)
  }

  /** The stringified histogram restricted to the codes below `n`, added in increasing order. */
  function KeyedBelow(codes: map<U16, int>, n: nat): map<string, int>
    requires n <= 0x1_0000
  {
    if n == 0 then map[]
    else if n - 1 in codes then KeyedBelow(codes, n - 1)[ShowNat(n - 1) := codes[n - 1]]
    else KeyedBelow(codes, n - 1)
  }

  lemma {:induction false} KeyedBelowEntries(codes: map<U16, int>, n: nat)
    requires n <= 0x1_0000
    ensures forall code :: code in codes && code < n ==> ShowNat(code) in KeyedBelow(codes, n) && KeyedBelow(codes, n)[ShowNat(code)] == codes[code]
    ensures forall key :: key in KeyedBelow(codes, n) ==> exists code :: code in codes && code < n && key == ShowNat(code)
  {
    if n > 0 {
      KeyedBelowEntries(codes, n - 1);
      forall code | code in codes && code < n - 1
        ensures ShowNat(code) != ShowNat(n - 1)
      {
        ShowNatInjective(code, n - 1);
      }
    }
  }

  /**
   * For consistent counters both rates are fractions in [0, 1], the error
   * rate is the complement of the success rate, and a window with no
   * requests reports zero for every rate and for the average latency.
   */
  lemma SnapshotRates(c: WindowCounters, base: StatsBase, endTime: int, sys: SystemResources)
    requires Consistent(c)
    ensures var s := ToStats(c, base, endTime, sys);
      && 0.0 <= s.errorRate <= 1.0
      && 0.0 <= s.cacheHitRate <= 1.0
      && (c.totalRequests > 0 ==> s.errorRate == 1.0 - c.successfulRequests as real / c.totalRequests as real)
      && (c.totalRequests == 0 ==> s.errorRate == 0.0 && s.cacheHitRate == 0.0 && s.averageRequestLatency == 0.0)
  {
    var s := ToStats(c, base, endTime, sys);
    var t := c.totalRequests as real;
    var e := (c.parseErrors + c.timeoutErrors + c.connectionErrors) as real;
    if c.totalRequests > 0 {
      assert s.errorRate == e / t;
      assert 0.0 <= e <= t;
      DivisionIsFraction(e, t);
      ComplementFraction(e, t);
      assert c.successfulRequests as real == t - e;
    }
    if c.successfulRequests > 0 {
      DivisionIsFraction(c.cacheHit as real, c.successfulRequests as real);
    }
  }

  lemma ComplementFraction(e: real, t: real)
    requires t > 0.0
    ensures 1.0 - e / t == (t - e) / t
  {
    var q := e / t;
    var p := (t - e) / t;
    assert q * t == e;
    assert p * t == t - e;
    var d := 1.0 - q - p;
    assert d * t == t - q * t - p * t;
    ZeroFactor(d, t);
  }

  lemma ZeroFactor(d: real, t: real)
    requires t > 0.0 && d * t == 0.0
    ensures d == 0.0
  {
  }

  lemma DivisionIsFraction(e: real, t: real)
    requires 0.0 <= e <= t && t > 0.0
    ensures 0.0 <= e / t <= 1.0
  {
  }

  /** A snapshot of a window in which nothing was recorded has no division-by-zero artefacts. */
  lemma EmptyWindowSnapshot(now: int, base: StatsBase, endTime: int, sys: SystemResources)
    ensures var s := ToStats(Fresh(now), base, endTime, sys);
      && s.totalRequests == 0 && s.errorRate == 0.0 && s.cacheHitRate == 0.0
      && s.averageRequestLatency == 0.0 && s.httpStatusCodes == map[]
      && s.timePeriod == TimePeriod(now, endTime)
  {
    var s := ToStats(Fresh(now), base, endTime, sys);
    assert s.httpStatusCodes.Keys == {};
  }

  /** One dial attempt: the elapsed microseconds of a connection made within the timeout, or None. */
  type Dial = (string, U16) -> Option<U64>

  /** Why a TCP probe fails: the host is not an IP literal, or the dial failed or timed out. */
  datatype ProbeError = AddrParse | ConnectFailed

  /**
   * `run_test_tcp(addr, port, 3 s)`: `isIp` says whether `IpAddr::from_str`
   * accepts the text, `dial` gives the elapsed microseconds of a connection
   * that succeeded within the timeout, or None.
   */
  function RunTestTcp(addr: string, port: U16, isIp: string -> bool, dial: Dial): (r: Result<U64, ProbeError>)
    ensures !isIp(addr) ==> r == Err(AddrParse)
    ensures isIp(addr) && dial(addr, port).None? ==> r == Err(ConnectFailed)
    ensures r.Ok? <==> isIp(addr) && dial(addr, port).Some?
    ensures r.Ok? ==> r.value == dial(addr, port).value
  {
    if !isIp(addr) then Err(AddrParse)
    else match dial(addr, port)
      case Some(us) => Ok(us)
      case None => Err(ConnectFailed)
  }

  /** The latency entry of one host in milliseconds: the measured time, or the 3 s timeout on failure. */
  function HostDelayMs(probe: Result<U64, ProbeError>): (ms: real)
    ensures probe.Err? ==> ms == 3000.0
    ensures probe.Ok? ==> ms * 1000.0 == probe.value as real
    ensures 0.0 <= ms
  {
    var micros := match probe
      case Ok(d) => d
      case Err(_) => ProbeTimeoutMicros;
    micros as real / 1000.0
  }

  /** The dial attempts of one report, by probe position: probe `i` of the host list answers as `probes(i)`. */
  type Probes = nat -> Dial

  /** The map after probing `hosts` in order, one probe and one insertion per position. */
  function PingMap(hosts: seq<string>, port: U16, isIp: string -> bool, probes: Probes): map<string, real>
    decreases |hosts|
  {
    if |hosts| == 0 then map[]
    else
      var i := |hosts| - 1;
      PingMap(hosts[..i], port, isIp, probes)[hosts[i] := HostDelayMs(RunTestTcp(hosts[i], port, isIp, probes(i)))]
  }

  /** The last position at which `h` is listed. */
  function LastIndex(hosts: seq<string>, h: string): (i: nat)
    requires h in hosts
    ensures i < |hosts| && hosts[i] == h
    ensures forall j :: i < j < |hosts| ==> hosts[j] != h
    decreases |hosts|
  {
    if hosts[|hosts| - 1] == h then |hosts| - 1 else LastIndex(hosts[..|hosts| - 1], h)
  }

  /**
   * Probing in order keys every listed host, and nothing else, to a latency;
   * a host listed more than once keeps the latency of its last probe, since
   * each later `insert` overwrites the earlier one.
   */
  lemma {:induction false} PingMapEntries(hosts: seq<string>, port: U16, isIp: string -> bool, probes: Probes)
    ensures forall h :: h in PingMap(hosts, port, isIp, probes) <==> h in hosts
    ensures forall h :: h in PingMap(hosts, port, isIp, probes) ==>
              PingMap(hosts, port, isIp, probes)[h] == HostDelayMs(RunTestTcp(h, port, isIp, probes(LastIndex(hosts, h))))
    decreases |hosts|
  {
    if |hosts| > 0 {
      var i := |hosts| - 1;
      PingMapEntries(hosts[..i], port, isIp, probes);
      assert hosts == hosts[..i] + [hosts[i]];
      forall h | h in hosts && h != hosts[i]
        ensures h in hosts[..i] && LastIndex(hosts, h) == LastIndex(hosts[..i], h)
      {
      }
    }
  }

  /** The `hosts_ping_delay` map of a report: the probes of the listed hosts, empty without a host list. */
  function HostPing(hostInfo: Option<(seq<string>, U16)>, isIp: string -> bool, probes: Probes): map<string, real>
  {
    match hostInfo
    case None => map[]
    case Some((hosts, port)) => PingMap(hosts, port, isIp, probes)
  }

  /**
   * Every listed host, and nothing else, has an entry, taken from the last
   * probe of that host: 3000 ms when it is not an IP literal or that dial
   * failed, the measured time otherwise; every latency is non-negative; with
   * no host list the map is empty.
   */
  lemma HostPingEntries(hostInfo: Option<(seq<string>, U16)>, isIp: string -> bool, probes: Probes)
    ensures hostInfo.None? ==> HostPing(hostInfo, isIp, probes) == map[]
    ensures hostInfo.Some? ==> forall h :: h in HostPing(hostInfo, isIp, probes) <==> h in hostInfo.value.0
    ensures hostInfo.Some? ==> forall h :: h in hostInfo.value.0 ==>
      var dial := probes(LastIndex(hostInfo.value.0, h));
      (!isIp(h) || dial(h, hostInfo.value.1).None? ==> HostPing(hostInfo, isIp, probes)[h] == 3000.0)
      && (isIp(h) && dial(h, hostInfo.value.1).Some? ==>
            HostPing(hostInfo, isIp, probes)[h] * 1000.0 == dial(h, hostInfo.value.1).value as real)
    ensures forall h :: h in HostPing(hostInfo, isIp, probes) ==> HostPing(hostInfo, isIp, probes)[h] >= 0.0
  {
    if hostInfo.Some? {
      PingMapEntries(hostInfo.value.0, hostInfo.value.1, isIp, probes);
    }
  }

  lemma HostPingExtend(hosts: seq<string>, i: nat, port: U16, isIp: string -> bool, probes: Probes)
    requires i < |hosts|
    ensures HostPing(Some((hosts[..i + 1], port)), isIp, probes)
         == HostPing(Some((hosts[..i], port)), isIp, probes)[hosts[i] := HostDelayMs(RunTestTcp(hosts[i], port, isIp, probes(i)))]
  {
    assert hosts[..i + 1][..i] == hosts[..i];
  }

  /** The probing loop of `RequestStats::to_stats_and_reset`: one probe and one map insertion per host, in order. */
  method ProbeHosts(hosts: seq<string>, port: U16, isIp: string -> bool, probes: Probes)
    returns (hostPing: map<string, real>)
    ensures hostPing == HostPing(Some((hosts, port)), isIp, probes)
  {
    hostPing := map[];
    var i := 0;
    while i < |hosts|
      invariant 0 <= i <= |hosts|
      invariant hostPing == HostPing(Some((hosts[..i], port)), isIp, probes)
    {
      var connectTs := match RunTestTcp(hosts[i], port, isIp, probes(i))
        case Ok(d) => d
        case Err(_) => ProbeTimeoutMicros;
      var ms := connectTs as real / 1000.0;
      HostPingExtend(hosts, i, port, isIp, probes);
      hostPing := hostPing[hosts[i] := ms];
      i := i + 1;
    }
    assert hosts[..|hosts|] == hosts;
  }

  /** The mutable counters of one reporting window (`struct InnerStats`). */
  class InnerStats {
    var initTime: int
    var startTime: int
    var totalRequests: int
    var successfulRequests: int
    var cacheHit: int
    var parseErrors: int
    var timeoutErrors: int
    var connectionErrors: int
    var httpStatusCodes: map<U16, int>
    var totalLatency: int
    var averageLatency: real

    function Counters(): WindowCounters
      reads this
    {
      WindowCounters(initTime, startTime, totalRequests, successfulRequests, cacheHit,
                     parseErrors, timeoutErrors, connectionErrors, httpStatusCodes,
                     totalLatency, averageLatency)
    }

    predicate Valid()
      reads this
    {
      Consistent(Counters())
    }

    /** `InnerStats::new()` with the clock reading `now`. */
    constructor (now: int)
      ensures Counters() == Fresh(now) && Valid()
    {
      initTime := now;
      startTime := now;
      totalRequests := 0;
      successfulRequests := 0;
      parseErrors := 0;
      timeoutErrors := 0;
      connectionErrors := 0;
      cacheHit := 0;
      httpStatusCodes := map[];
      totalLatency := 0;
      averageLatency := 0.0;
    }

    method UpdateStats(requestTime: int, responseTime: int, statusCode: U16, result: RequestResult)
      requires totalRequests >= 0
      modifies this
      ensures Counters() == Recorded(old(Counters()), requestTime, responseTime, statusCode, result)
      ensures old(Valid()) ==> Valid()
    {
      CountRequestStep(requestTime, responseTime, statusCode);
      CountOutcomeStep(result);
    }

    /** The first half of `update_stats`: total, latency, running average and status histogram. */
    method CountRequestStep(requestTime: int, responseTime: int, statusCode: U16)
      requires totalRequests >= 0
      modifies this
      ensures Counters() == CountRequest(old(Counters()), requestTime, responseTime, statusCode)
    {
      totalRequests := totalRequests + 1;
      var latency := responseTime - requestTime;
      totalLatency := totalLatency + latency;
      averageLatency := totalLatency as real / totalRequests as real;
      if statusCode != 0 {
        var current := if statusCode in httpStatusCodes then httpStatusCodes[statusCode] else 0;
        httpStatusCodes := httpStatusCodes[statusCode := current + 1];
      }
    }

    /** The second half of `update_stats`: the counter of the outcome. */
    method CountOutcomeStep(result: RequestResult)
      modifies this
      ensures Counters() == CountOutcome(old(Counters()), result)
    {
      match result {
        case Successful =>
          successfulRequests := successfulRequests + 1;
        case SuccessfulAndCache =>
          successfulRequests := successfulRequests + 1;
          cacheHit := cacheHit + 1;
        case ParseError =>
          parseErrors := parseErrors + 1;
        case TimeoutError =>
          timeoutErrors := timeoutErrors + 1;
        case ConnectionError =>
          connectionErrors := connectionErrors + 1;
      }
    }
  }

  /** The process-wide aggregator (`struct RequestStats`); the mutex is not modelled. */
  class RequestStats {
    var inner: InnerStats

    /** The window's counters are consistent. */
    predicate Valid()
      reads this, inner
    {
      inner.Valid()
    }

    constructor (now: int)
      ensures fresh(inner) && inner.Counters() == Fresh(now) && Valid()
    {
      inner := new InnerStats(now);
    }

    method UpdateStats(requestTime: int, responseTime: int, statusCode: U16, result: RequestResult)
      requires Valid()
      modifies inner
      ensures inner.Counters() == Recorded(old(inner.Counters()), requestTime, responseTime, statusCode, result)
      ensures Valid()
    {
      inner.UpdateStats(requestTime, responseTime, statusCode, result);
    }

    /**
     * Probe every host (outside the lock), build the snapshot from the
     * current counters at `endTime`, attach the host latencies, and replace
     * the counters by a fresh set read at `resetTime`: the new window starts
     * from zero, and its init time is the reset time as well.
     */
    method ToStatsAndReset(base: StatsBase, hostInfo: Option<(seq<string>, U16)>,
                           isIp: string -> bool, probes: Probes,
                           endTime: int, resetTime: int, sys: SystemResources)
      returns (s: Stats)
      modifies this
      ensures s == ToStats(old(inner.Counters()), base, endTime, sys).(hostsPingDelay := HostPing(hostInfo, isIp, probes))
      ensures fresh(inner) && inner.Counters() == Fresh(resetTime) && Valid()
    {
      var hostPing: map<string, real> := map[];
      if hostInfo.Some? {
        var (hosts, port) := hostInfo.value;
        hostPing := ProbeHosts(hosts, port, isIp, probes);
      }
      s := ToStats(inner.Counters(), base, endTime, sys).(hostsPingDelay := hostPing);
      Reset(resetTime);
    }

    /** Replaces the window with a fresh one opened at `now`. */
    method Reset(now: int)
      modifies this
      ensures fresh(inner) && inner.Counters() == Fresh(now) && Valid()
    {
      inner := new InnerStats(now);
    }
  }
}
