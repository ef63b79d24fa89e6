/**
 * The spider's process-wide state and its reporting thread (src/spider/mod.rs).
 *
 * `Global<T>` is a write-once cell; the same type is declared again, with the
 * same body, in src/tool/typ.rs, and this class stands for both. The host
 * supplier installed by `init_spider_vars` is a function of the reporting
 * cycle, and the JSON encoding of a snapshot is a parameter `encode`.
 */
module SpiderMod {
  import opened Wrappers
  import opened Num
  import opened SpiderEntity
  import opened SpiderStats
  import opened SpiderPush

  /** The cell and the result after one `init(value)` on a cell holding `cell`. */
  function InitStep<T>(cell: Option<T>, value: T): (r: (Option<T>, Result<(), T>))
    ensures cell.None? ==> r == (Some(value), Ok(()))
    ensures cell.Some? ==> r == (cell, Err(value))
  {
    if cell.None? then (Some(value), Ok(())) else (cell, Err(value))
  }

  /** The cell and the results after `init` is called with each of `values` in turn. */
  function InitAll<T>(cell: Option<T>, values: seq<T>): (r: (Option<T>, seq<Result<(), T>>))
    ensures |r.1| == |values|
    decreases |values|
  {
    if |values| == 0 then (cell, [])
    else
      var (next, first) := InitStep(cell, values[0]);
      var (last, rest) := InitAll(next, values[1..]);
      (last, [first] + rest)
  }

  /** Once the cell is set, every further `init` is rejected with its own value and the cell keeps its content. */
  lemma {:induction false} InitAllWhenSet<T>(cell: Option<T>, values: seq<T>)
    requires cell.Some?
    ensures InitAll(cell, values).0 == cell
    ensures forall j :: 0 <= j < |values| ==> InitAll(cell, values).1[j] == Err(values[j])
    decreases |values|
  {
    if |values| > 0 {
      InitAllWhenSet(cell, values[1..]);
    }
  }

  /** On a fresh cell the first `init` wins: it succeeds, every later one fails, and the first value stays. */
  lemma FirstInitWins<T>(values: seq<T>)
    requires |values| > 0
    ensures InitAll(None, values).0 == Some(values[0])
    ensures InitAll(None, values).1[0] == Ok(())
    ensures forall j :: 0 < j < |values| ==> InitAll(None, values).1[j] == Err(values[j])
  {
    InitAllWhenSet(Some(values[0]), values[1..]);
  }

  /** `struct Global<T>(OnceCell<T>)`. */
  class Global<T> {
    var cell: Option<T>

    /** `Global::new()`: an empty cell. */
    constructor ()
      ensures cell == None
    {
      cell := None;
    }

    /** `init`: sets an empty cell; on a set cell hands the value back and changes nothing. */
    method Init(value: T) returns (r: Result<(), T>)
      modifies this
      ensures (cell, r) == InitStep(old(cell), value)
      ensures old(cell).Some? ==> r == Err(value) && cell == old(cell)
      ensures old(cell).None? ==> r == Ok(()) && cell == Some(value)
    {
      if cell.None? {
        cell := Some(value);
        r := Ok(());
      } else {
        r := Err(value);
      }
    }

    /** `get`. */
    function Get(): Option<T>
      reads this
    {
      cell
    }

    /** `is_initialized`. */
    predicate IsInitialized()
      reads this
      ensures IsInitialized() <==> Get().Some?
    {
      cell.Some?
    }

    /** `deref`: only defined once the cell is set, where it is the value `get` returns. */
    function Deref(): (v: T)
      reads this
      requires IsInitialized()
      ensures Get() == Some(v)
    {
      cell.value
    }
  }

  /** The host supplier of `GET_HOSTS`, as its answer at each reporting cycle. */
  type HostSupplier = nat -> Result<seq<string>, string>

  /** The host argument of `send_stats`: None when the supplier failed, else the hosts with the test port. */
  function HostInfo(supplied: Result<seq<string>, string>, port: U16): (h: Option<(seq<string>, U16)>)
    ensures h.None? <==> supplied.Err?
    ensures supplied.Ok? ==> h == Some((supplied.value, port))
  {
    match supplied
    case Ok(hosts) => Some((hosts, port))
    case Err(_) => None
  }

  datatype InitError = PushAlreadySet | HostCallAlreadySet

  /**
   * `init_spider_vars`: builds the broadcast channel (its push workers start
   * whatever follows), then sets the two cells, returning at the first one
   * already set. On Ok the reporting thread is started.
   */
  method InitSpiderVars(push: Global<Broadcast>, getHosts: Global<HostSupplier>,
                        targets: seq<string>, supplier: HostSupplier)
    returns (r: Result<(), InitError>, chan: Broadcast, workers: seq<(string, nat)>)
    modifies push, getHosts
    ensures fresh(chan) && chan.capacity == ChannelCapacity && chan.receivers == |targets|
    ensures |workers| == |targets|
    ensures old(push.cell).Some? ==>
              r == Err(PushAlreadySet) && push.cell == old(push.cell) && getHosts.cell == old(getHosts.cell)
    ensures old(push.cell).None? ==> push.cell == Some(chan)
    ensures old(push.cell).None? && old(getHosts.cell).Some? ==>
              r == Err(HostCallAlreadySet) && getHosts.cell == old(getHosts.cell)
    ensures old(push.cell).None? && old(getHosts.cell).None? ==> r == Ok(()) && getHosts.cell == Some(supplier)
  {
    chan, workers := LoadBroadcastChan(targets);
    var pushSet := push.Init(chan);
    if pushSet.Err? {
      return Err(PushAlreadySet), chan, workers;
    }
    var hostsSet := getHosts.Init(supplier);
    if hostsSet.Err? {
      return Err(HostCallAlreadySet), chan, workers;
    }
    r := Ok(());
  }

  /** The text `send_stats` publishes for the counters `c`: the snapshot at `endTime` with the host latencies, encoded. */
  function Report(c: WindowCounters, base: StatsBase, hostInfo: Option<(seq<string>, U16)>,
                  isIp: string -> bool, probes: Probes,
                  endTime: int, sys: SystemResources, encode: Stats -> string): string
  {
    encode(ToStats(c, base, endTime, sys).(hostsPingDelay := HostPing(hostInfo, isIp, probes)))
  }

  /**
   * `update_stats`, called by the spider for each finished request, here for
   * a batch of requests in the order they finished.
   */
  method RecordBatch(stats: RequestStats, batch: seq<Record>)
    requires stats.Valid()
    modifies stats.inner
    ensures stats.Valid()
    ensures stats.inner.Counters() == RecordAll(old(stats.inner.Counters()), batch)
  {
    var i := 0;
    while i < |batch|
      invariant 0 <= i <= |batch|
      invariant stats.Valid()
      invariant stats.inner.Counters() == RecordAll(old(stats.inner.Counters()), batch[..i])
    {
      var r := batch[i];
      assert batch[..i + 1][..i] == batch[..i];
      stats.UpdateStats(r.requestTime, r.responseTime, r.statusCode, r.result);
      i := i + 1;
    }
    assert batch[..|batch|] == batch;
  }

  /**
   * `send_stats`: takes the snapshot, encodes it and publishes it. A publish
   * with no live receiver fails and is only logged, so the caller always
   * proceeds; `delivered` is the number of receivers it reached.
   */
  method SendStats(stats: RequestStats, push: Global<Broadcast>, base: StatsBase,
                   hostInfo: Option<(seq<string>, U16)>,
                   isIp: string -> bool, probes: Probes,
                   endTime: int, resetTime: int, sys: SystemResources, encode: Stats -> string)
    returns (msg: string, delivered: nat)
    requires push.IsInitialized()
    modifies stats
    ensures msg == Report(old(stats.inner.Counters()), base, hostInfo, isIp, probes, endTime, sys, encode)
    ensures fresh(stats.inner) && stats.inner.Counters() == Fresh(resetTime) && stats.Valid()
    ensures delivered == push.Deref().receivers
  {
    var s := stats.ToStatsAndReset(base, hostInfo, isIp, probes, endTime, resetTime, sys);
    msg := encode(s);
    var published := push.Deref().Send(msg);
    match published {
      case Ok(n) => delivered := n;
      case Err(_) => delivered := 0;
    }
  }

  /**
   * What the reporting thread meets in each cycle `k`: the supplier's answer,
   * the requests the spider records during the cycle (`batches(k)`), the
   * answers of the host probes, the two clock readings of `send_stats` (end
   * of the snapshot, then the reset) and the resource sample.
   */
  datatype Environment = Environment(
    supplier: HostSupplier,
    port: U16,
    isIp: string -> bool,
    batches: nat -> seq<Record>,
    probes: nat -> Probes,
    clock: nat -> (int, int),
    sys: nat -> SystemResources,
    encode: Stats -> string)

  /** The counters when cycle `k` starts: those held on entry, then each time a fresh window from the previous cycle's reset. */
  function Opened(k: nat, first: WindowCounters, env: Environment): (c: WindowCounters)
    requires first.totalRequests >= 0
    ensures c.totalRequests >= 0
  {
    if k == 0 then first else Fresh(env.clock(k - 1).1)
  }

  /** The counters report `k` is taken from: the window opened for cycle `k` with that cycle's requests recorded. */
  function Window(k: nat, first: WindowCounters, env: Environment): WindowCounters
    requires first.totalRequests >= 0
  {
    RecordAll(Opened(k, first, env), env.batches(k))
  }

  /** The report of cycle `k`. */
  function CycleReport(k: nat, first: WindowCounters, base: StatsBase, env: Environment): string
    requires first.totalRequests >= 0
  {
    Report(Window(k, first, env), base, HostInfo(env.supplier(k), env.port), env.isIp, env.probes(k),
           env.clock(k).0, env.sys(k), env.encode)
  }

  /** The report of each cycle, as a function of the cycle number. */
  function CycleReports(first: WindowCounters, base: StatsBase, env: Environment): int --> string
    requires first.totalRequests >= 0
  {
    k requires k >= 0 => CycleReport(k, first, base, env)
  }

  /** The reports of the first `n` cycles of the reporting loop, in order. */
  function Reports(n: nat, first: WindowCounters, base: StatsBase, env: Environment): (rs: seq<string>)
    requires first.totalRequests >= 0
    ensures |rs| == n
  {
    seq(n, CycleReports(first, base, env))
  }

  /** A sequence built from a function, one element longer, is the shorter one with the next value appended. */
  lemma SeqSnoc<T>(n: nat, f: int --> T)
    requires forall i :: 0 <= i <= n ==> f.requires(i)
    ensures seq(n + 1, f) == seq(n, f) + [f(n)]
  {
  }

  /** The host arguments of the first `n` cycles, in order. */
  function HostInfos(n: nat, env: Environment): (hs: seq<Option<(seq<string>, U16)>>)
    ensures |hs| == n
    decreases n
  {
    if n == 0 then [] else HostInfos(n - 1, env) + [HostInfo(env.supplier(n - 1), env.port)]
  }

  /** Entry `j` of `HostInfos` is the host argument of cycle `j`. */
  lemma {:induction false} HostInfosAt(n: nat, env: Environment)
    ensures forall j :: 0 <= j < n ==> HostInfos(n, env)[j] == HostInfo(env.supplier(j), env.port)
    decreases n
  {
    if n > 0 {
      HostInfosAt(n - 1, env);
    }
  }

  /** Every report of `Reports` is built from its cycle's window and from the host list recorded for that cycle. */
  lemma ReportsMatch(reports: seq<string>, hostInfos: seq<Option<(seq<string>, U16)>>,
                     first: WindowCounters, base: StatsBase, env: Environment)
    requires first.totalRequests >= 0
    requires reports == Reports(|hostInfos|, first, base, env)
    requires forall j :: 0 <= j < |hostInfos| ==> hostInfos[j] == HostInfo(env.supplier(j), env.port)
    ensures forall j :: 0 <= j < |reports| ==>
              reports[j] == Report(Window(j, first, env), base, hostInfos[j], env.isIp, env.probes(j),
                                   env.clock(j).0, env.sys(j), env.encode)
  {
    forall j | 0 <= j < |reports|
      ensures reports[j] == Report(Window(j, first, env), base, hostInfos[j], env.isIp, env.probes(j),
                                   env.clock(j).0, env.sys(j), env.encode)
    {
      assert reports[j] == CycleReport(j, first, base, env);
    }
  }

  /**
   * The snapshot behind report `k > 0` counts exactly the requests recorded
   * during cycle `k`: its total, successes' cache hits, errors and window
   * start come from that cycle alone, and its runtime runs from the previous
   * reset, since the fresh window's init time is the reset time too.
   */
  lemma CycleSnapshot(k: nat, first: WindowCounters, base: StatsBase, env: Environment)
    requires first.totalRequests >= 0 && k > 0
    ensures var s := ToStats(Window(k, first, env), base, env.clock(k).0, env.sys(k));
            var rs := env.batches(k);
      && s.totalRequests == |rs|
      && s.cacheHit == CountWhere(rs, (x: RequestResult) => x.IsCacheHit())
      && s.exceptionTypes.parseError + s.exceptionTypes.timeoutError + s.exceptionTypes.connectionError
         == CountWhere(rs, (x: RequestResult) => x.IsError())
      && s.timePeriod.start == env.clock(k - 1).1
      && s.runtimeDuration == DivTrunc(env.clock(k).0 - env.clock(k - 1).1, 1000)
      && (|rs| == 0 ==> s.errorRate == 0.0 && s.cacheHitRate == 0.0)
  {
    RecordAllCounts(Fresh(env.clock(k - 1).1), env.batches(k));
  }

  /**
   * One cycle of the reporting loop: the spider records the cycle's
   * requests, then the thread asks the supplier and sends report `k`,
   * recording the host list used.
   */
  method ReportRound(stats: RequestStats, push: Global<Broadcast>, base: StatsBase, env: Environment,
                     k: nat, ghost first: WindowCounters,
                     reports: seq<string>, hostInfos: seq<Option<(seq<string>, U16)>>)
    returns (reports': seq<string>, hostInfos': seq<Option<(seq<string>, U16)>>)
    requires push.IsInitialized() && stats.Valid() && first.totalRequests >= 0
    requires stats.inner.Counters() == Opened(k, first, env)
    requires reports == Reports(k, first, base, env)
    requires hostInfos == HostInfos(k, env)
    modifies stats, stats.inner
    ensures reports' == Reports(k + 1, first, base, env)
    ensures hostInfos' == HostInfos(k + 1, env)
    ensures fresh(stats.inner) && stats.Valid() && stats.inner.Counters() == Opened(k + 1, first, env)
  {
    RecordBatch(stats, env.batches(k));
    var host := HostInfo(env.supplier(k), env.port);
    var (endTime, resetTime) := env.clock(k);
    var msg, _ := SendStats(stats, push, base, host, env.isIp, env.probes(k), endTime, resetTime, env.sys(k), env.encode);
    reports' := reports + [msg];
    hostInfos' := hostInfos + [host];
    SeqSnoc(k, CycleReports(first, base, env));
  }

  /**
   * The reporting thread of `init_spider_vars`, over `cycles` cycles: in each
   * the spider records requests, then the thread asks the supplier for hosts
   * and sends a report, whether the supplier failed or not.
   */
  method ReportLoop(stats: RequestStats, push: Global<Broadcast>, base: StatsBase, env: Environment, cycles: nat)
    returns (reports: seq<string>, hostInfos: seq<Option<(seq<string>, U16)>>)
    requires push.IsInitialized() && stats.Valid()
    modifies stats, stats.inner
    ensures |reports| == cycles && |hostInfos| == cycles
    ensures forall k :: 0 <= k < cycles ==> hostInfos[k] == HostInfo(env.supplier(k), env.port)
    ensures cycles > 0 ==> stats.inner.Counters() == Fresh(env.clock(cycles - 1).1)
    ensures reports == Reports(cycles, old(stats.inner.Counters()), base, env)
    ensures forall k :: 0 <= k < cycles ==> reports[k] == CycleReport(k, old(stats.inner.Counters()), base, env)
  {
    reports := [];
    hostInfos := [];
    ghost var first := stats.inner.Counters();
    var k := 0;
    while k < cycles
      invariant k <= cycles
      invariant hostInfos == HostInfos(k, env)
      invariant stats.Valid() && stats.inner.Counters() == Opened(k, first, env)
      invariant stats.inner == old(stats.inner) || fresh(stats.inner)
      invariant push.IsInitialized()
      invariant reports == Reports(k, first, base, env)
    {
      reports, hostInfos := ReportRound(stats, push, base, env, k, first, reports, hostInfos);
      k := k + 1;
    }
    assert k == cycles && first == old(stats.inner.Counters());
    HostInfosAt(cycles, env);
  }
}
