/** The value types of the statistics report (src/spider/entity.rs). */
module SpiderEntity {
  import opened Num

  /** Outcome of one completed request: two success kinds and three error kinds. */
  datatype RequestResult =
    | Successful          // succeeded, not served from cache
    | SuccessfulAndCache  // succeeded and hit the cache
    | ParseError
    | TimeoutError
    | ConnectionError
  {
    predicate IsSuccess()
    {
      Successful? || SuccessfulAndCache?
    }

    predicate IsCacheHit()
    {
      SuccessfulAndCache?
    }

    predicate IsError()
    {
      ParseError? || TimeoutError? || ConnectionError?
    }
  }

  /** Every outcome, once each: the enumeration is closed and has five members. */
  function AllRequestResults(): (rs: seq<RequestResult>)
    ensures |rs| == 5
    ensures forall r: RequestResult :: r in rs
    ensures forall i, j :: 0 <= i < j < |rs| ==> rs[i] != rs[j]
    ensures |set r | r in rs && r.IsSuccess()| == 2
  {
    var rs := [Successful, SuccessfulAndCache, ParseError, TimeoutError, ConnectionError];
    assert (set r | r in rs && r.IsSuccess()) == {Successful, SuccessfulAndCache};
    assert forall r: RequestResult :: r in rs by {
      forall r: RequestResult ensures r in rs {
        Listed(r, rs);
      }
    }
    rs
  }

  lemma Listed(r: RequestResult, rs: seq<RequestResult>)
    requires rs == [Successful, SuccessfulAndCache, ParseError, TimeoutError, ConnectionError]
    ensures r in rs
  {
    match r
    case Successful => assert r == rs[0];
    case SuccessfulAndCache => assert r == rs[1];
    case ParseError => assert r == rs[2];
    case TimeoutError => assert r == rs[3];
    case ConnectionError => assert r == rs[4];
  }

  /** Each outcome is a success or an error, never both, and a cache hit is a success. */
  lemma OutcomeClassification(r: RequestResult)
    ensures r.IsSuccess() != r.IsError()
    ensures r.IsCacheHit() <==> r == SuccessfulAndCache
    ensures r.IsSuccess() && !r.IsCacheHit() <==> r == Successful
  {
  }

  /** A used/total pair of unsigned 64-bit quantities (megabytes). */
  datatype Usage = Usage(used: U64, total: U64)

  /** CPU load as preformatted text, memory and disk usage. */
  datatype SystemResources = SystemResources(cpuUsage: string, memoryUsage: Usage, diskUsage: Usage)

  /** The three error counters of a reporting window. */
  datatype ExceptionTypes = ExceptionTypes(connectionError: int, timeoutError: int, parseError: int)

  /** Millisecond timestamps bounding a reporting window. */
  datatype TimePeriod = TimePeriod(start: int, end: int)

  /** The externally supplied identity of the reporting process. */
  datatype StatsBase = StatsBase(
    serverName: string,
    scraperName: string,
    projectCode: string,
    scraperType: string,
    requestFrequency: int)

  /**
   * One report. Rates and latencies are exact reals: the rounding to three
   * decimals is modelled, the f64 representation is not.
   */
  datatype Stats = Stats(
    base: StatsBase,
    timePeriod: TimePeriod,
    errorRate: real,
    exceptionTypes: ExceptionTypes,
    runtimeDuration: int,
    totalRequests: int,
    cacheHitRate: real,
    cacheHit: int,
    httpStatusCodes: map<string, int>,
    averageRequestLatency: real,
    hostsPingDelay: map<string, real>,
    systemResources: SystemResources)
}
