/**
 * Remote black- and whitelists (src/tool/remove_list.rs).
 *
 * Lists are fetched over HTTP and split into entries by `blacklist_detach`;
 * both are parameters: `fetch(url, k)` is the answer to the k-th attempt (from
 * 0) of one `merge` call on `url`, either the body or a transport error, and
 * `detach` is the splitter. A `HashSet` that the source mutates through
 * `&mut` is a `StringSet` object here.
 */
module ToolRemoveList {
  import opened Wrappers
  import opened Num
  import opened Strings

  /** `struct RemoveConfig`. */
  datatype RemoveConfig = RemoveConfig(ruleId: string, blackUrl: Option<string>, whiteUrl: Option<string>)

  /** `struct RemoveList`. */
  datatype RemoveList = RemoveList(callCount: I32, targetUrl: seq<string>, ops: seq<RemoveConfig>)

  datatype FetchError = HttpError(reason: string) | EmptyResponse

  type Fetch = (string, nat) -> Result<string, string>
  type Detach = string -> set<string>

  /** A mutable `HashSet<String>`. */
  class StringSet {
    var elems: set<string>

    constructor ()
      ensures elems == {}
    {
      elems := {};
    }

    method Insert(x: string)
      modifies this
      ensures elems == old(elems) + {x}
    {
      elems := elems + {x};
    }
  }

  /** `hash_set_merge`: every element of `source` is inserted, in whatever order the set yields them. */
  method HashSetMerge(target: StringSet, source: set<string>)
    modifies target
    ensures target.elems == old(target.elems) + source
  {
    var rest := source;
    while rest != {}
      invariant rest <= source
      invariant target.elems == old(target.elems) + (source - rest)
      decreases |rest|
    {
      var x :| x in rest;
      target.Insert(x);
      rest := rest - {x};
    }
  }

  /** Why one attempt of `merge` failed, or None when it produced a non-empty body. */
  function AttemptError(resp: Result<string, string>): (e: Option<FetchError>)
    ensures e.None? <==> resp.Ok? && |resp.value| > 0
    ensures resp.Err? ==> e == Some(HttpError(resp.error))
  {
    match resp
    case Err(reason) => Some(HttpError(reason))
    case Ok(text) => if |text| == 0 then Some(EmptyResponse) else None
  }

  /** The first of the attempts 0..n-1 on `url` that produces a non-empty body. */
  function FirstGood(url: string, fetch: Fetch, n: nat): (r: Option<nat>)
    ensures r.Some? ==> r.value < n && AttemptError(fetch(url, r.value)).None?
    ensures r.Some? ==> forall j :: 0 <= j < r.value ==> AttemptError(fetch(url, j)).Some?
    ensures r.None? ==> forall j :: 0 <= j < n ==> AttemptError(fetch(url, j)).Some?
    decreases n
  {
    if n == 0 then None
    else
      var earlier := FirstGood(url, fetch, n - 1);
      if earlier.Some? then earlier
      else if AttemptError(fetch(url, n - 1)).None? then Some(n - 1)
      else None
  }

  /**
   * What `merge(url, data, retry)` returns and leaves in `data`: the entries
   * of the first good attempt are added and the call succeeds; with no good
   * attempt, `data` is untouched and the call fails with the last attempt's
   * error, or succeeds when no attempt was allowed.
   */
  function MergeSpec(url: string, retry: nat, fetch: Fetch, detach: Detach, data: set<string>)
    : (r: (Result<(), FetchError>, set<string>))
    ensures r.0.Ok? <==> retry == 0 || FirstGood(url, fetch, retry).Some?
    ensures FirstGood(url, fetch, retry).None? ==> r.1 == data
    ensures retry > 0 && r.0.Err? ==> r.0.error == AttemptError(fetch(url, retry - 1)).value
    ensures FirstGood(url, fetch, retry).Some? ==>
              r.1 == data + detach(fetch(url, FirstGood(url, fetch, retry).value).value)
    ensures data <= r.1
  {
    match FirstGood(url, fetch, retry)
    case Some(k) => (Ok(()), data + detach(fetch(url, k).value))
    case None =>
      if retry == 0 then (Ok(()), data)
      else (Err(AttemptError(fetch(url, retry - 1)).value), data)
  }

  /** `merge`: at most `retry` attempts; the first non-empty body is merged once and ends the loop. */
  method Merge(url: string, data: StringSet, retry: U8, fetch: Fetch, detach: Detach)
    returns (r: Result<(), FetchError>)
    modifies data
    ensures (r, data.elems) == MergeSpec(url, retry, fetch, detach, old(data.elems))
  {
    var er: Result<(), FetchError> := Ok(());
    var i := 0;
    while i < retry
      invariant i <= retry
      invariant FirstGood(url, fetch, i).None?
      invariant data.elems == old(data.elems)
      invariant i == 0 ==> er == Ok(())
      invariant i > 0 ==> er == Err(AttemptError(fetch(url, i - 1)).value)
    {
      var text;
      match fetch(url, i) {
        case Err(reason) =>
          er := Err(HttpError(reason));
          i := i + 1;
          continue;
        case Ok(body) =>
          text := body;
      }
      if |text| == 0 {
        er := Err(EmptyResponse);
        i := i + 1;
        continue;
      }
      HashSetMerge(data, detach(text));
      assert FirstGood(url, fetch, retry) == Some(i);
      return Ok(());
    }
    r := er;
  }

  /** Entries collected from `urls` in order, each merged as `merge` does; the first failure aborts. */
  function Collect(urls: seq<string>, retry: nat, fetch: Fetch, detach: Detach): Result<set<string>, FetchError>
    decreases |urls|
  {
    if |urls| == 0 then Ok({})
    else
      match Collect(urls[..|urls| - 1], retry, fetch, detach)
      case Err(e) => Err(e)
      case Ok(d) =>
        var (r, d') := MergeSpec(urls[|urls| - 1], retry, fetch, detach, d);
        if r.Err? then Err(r.error) else Ok(d')
  }

  /** The black URLs of `ops`, in order, skipping the missing ones. */
  function BlackUrls(ops: seq<RemoveConfig>): seq<string>
    decreases |ops|
  {
    if |ops| == 0 then []
    else
      var op := ops[|ops| - 1];
      BlackUrls(ops[..|ops| - 1]) + (if op.blackUrl.Some? then [op.blackUrl.value] else [])
  }

  /** The white URLs of `ops`, in order, skipping the missing ones. */
  function WhiteUrls(ops: seq<RemoveConfig>): seq<string>
    decreases |ops|
  {
    if |ops| == 0 then []
    else
      var op := ops[|ops| - 1];
      WhiteUrls(ops[..|ops| - 1]) + (if op.whiteUrl.Some? then [op.whiteUrl.value] else [])
  }

  /** One optional merge: a missing URL leaves the set as it is. */
  function MergeOptional(url: Option<string>, retry: nat, fetch: Fetch, detach: Detach, data: set<string>)
    : (Result<(), FetchError>, set<string>)
  {
    if url.Some? then MergeSpec(url.value, retry, fetch, detach, data) else (Ok(()), data)
  }

  /** `load_all_list`: per config the black URL into the blacklist, then the white URL into the whitelist. */
  function LoadAll(ops: seq<RemoveConfig>, retry: nat, fetch: Fetch, detach: Detach)
    : Result<(set<string>, set<string>), FetchError>
    decreases |ops|
  {
    if |ops| == 0 then Ok(({}, {}))
    else
      match LoadAll(ops[..|ops| - 1], retry, fetch, detach)
      case Err(e) => Err(e)
      case Ok((black, white)) =>
        var op := ops[|ops| - 1];
        var (rb, black') := MergeOptional(op.blackUrl, retry, fetch, detach, black);
        if rb.Err? then Err(rb.error)
        else
          var (rw, white') := MergeOptional(op.whiteUrl, retry, fetch, detach, white);
          if rw.Err? then Err(rw.error) else Ok((black', white'))
  }

  /**
   * When loading succeeds, the blacklist is exactly what the black URLs give
   * and the whitelist exactly what the white URLs give: no list takes entries
   * from the other's URLs, and configs without a URL contribute nothing.
   */
  lemma {:induction false} LoadAllSeparates(ops: seq<RemoveConfig>, retry: nat, fetch: Fetch, detach: Detach)
    requires LoadAll(ops, retry, fetch, detach).Ok?
    ensures Collect(BlackUrls(ops), retry, fetch, detach) == Ok(LoadAll(ops, retry, fetch, detach).value.0)
    ensures Collect(WhiteUrls(ops), retry, fetch, detach) == Ok(LoadAll(ops, retry, fetch, detach).value.1)
    decreases |ops|
  {
    if |ops| > 0 {
      var p := ops[..|ops| - 1];
      var op := ops[|ops| - 1];
      LoadAllSeparates(p, retry, fetch, detach);
      var bs := BlackUrls(ops);
      var ws := WhiteUrls(ops);
      if op.blackUrl.Some? {
        assert bs[..|bs| - 1] == BlackUrls(p);
      } else {
        assert bs == BlackUrls(p);
      }
      if op.whiteUrl.Some? {
        assert ws[..|ws| - 1] == WhiteUrls(p);
      } else {
        assert ws == WhiteUrls(p);
      }
    }
  }

  /** After the first failure nothing more is loaded: later configs do not change the outcome. */
  lemma {:induction false} LoadAllAborts(ops: seq<RemoveConfig>, more: seq<RemoveConfig>, retry: nat, fetch: Fetch, detach: Detach)
    requires LoadAll(ops, retry, fetch, detach).Err?
    ensures LoadAll(ops + more, retry, fetch, detach) == LoadAll(ops, retry, fetch, detach)
    decreases |more|
  {
    if |more| == 0 {
      assert ops + more == ops;
    } else {
      var m := more[..|more| - 1];
      assert (ops + more)[..|ops + more| - 1] == ops + m;
      LoadAllAborts(ops, m, retry, fetch, detach);
    }
  }

  /** `load_all_list` as the source writes it: one loop, two sets, `?` on every merge. */
  method LoadAllList(ops: seq<RemoveConfig>, retry: U8, fetch: Fetch, detach: Detach)
    returns (r: Result<(set<string>, set<string>), FetchError>)
    ensures r == LoadAll(ops, retry, fetch, detach)
  {
    var blacklist := new StringSet();
    var whitelist := new StringSet();
    var i := 0;
    while i < |ops|
      invariant i <= |ops|
      invariant LoadAll(ops[..i], retry, fetch, detach) == Ok((blacklist.elems, whitelist.elems))
    {
      var op := ops[i];
      assert ops[..i + 1][..i] == ops[..i];
      if op.blackUrl.Some? {
        var rb := Merge(op.blackUrl.value, blacklist, retry, fetch, detach);
        if rb.Err? {
          assert LoadAll(ops[..i + 1], retry, fetch, detach) == Err(rb.error);
          assert ops == ops[..i + 1] + ops[i + 1..];
          LoadAllAborts(ops[..i + 1], ops[i + 1..], retry, fetch, detach);
          return Err(rb.error);
        }
      }
      if op.whiteUrl.Some? {
        var rw := Merge(op.whiteUrl.value, whitelist, retry, fetch, detach);
        if rw.Err? {
          assert LoadAll(ops[..i + 1], retry, fetch, detach) == Err(rw.error);
          assert ops == ops[..i + 1] + ops[i + 1..];
          LoadAllAborts(ops[..i + 1], ops[i + 1..], retry, fetch, detach);
          return Err(rw.error);
        }
      }
      i := i + 1;
    }
    assert ops[..|ops|] == ops;
    r := Ok((blacklist.elems, whitelist.elems));
  }

  /** The configs of `ops` with rule id `ruleId`, in order, repeats included. */
  function MatchingOps(ops: seq<RemoveConfig>, ruleId: string): (r: seq<RemoveConfig>)
    ensures forall op :: multiset(r)[op] == (if op.ruleId == ruleId then multiset(ops)[op] else 0)
    ensures forall i :: 0 <= i < |r| ==> r[i].ruleId == ruleId
    decreases |ops|
  {
    if |ops| == 0 then []
    else
      var op := ops[|ops| - 1];
      assert ops == ops[..|ops| - 1] + [op];
      MatchingOps(ops[..|ops| - 1], ruleId) + (if op.ruleId == ruleId then [op] else [])
  }

  /** `load_match_list`: the lists of the configs with the given rule id. */
  method LoadMatchList(ruleId: string, ops: seq<RemoveConfig>, retry: U8, fetch: Fetch, detach: Detach)
    returns (r: Result<(set<string>, set<string>), FetchError>)
    ensures r == LoadAll(MatchingOps(ops, ruleId), retry, fetch, detach)
  {
    r := LoadAllList(MatchingOps(ops, ruleId), retry, fetch, detach);
  }

  /** `load_match_list_and_merge`: on success both lists are merged into the targets; on failure neither changes. */
  method LoadMatchListAndMerge(ruleId: string, ops: seq<RemoveConfig>, targetBlacklist: StringSet,
                               targetWhitelist: StringSet, retry: U8, fetch: Fetch, detach: Detach)
    returns (r: Result<(), FetchError>)
    requires targetBlacklist != targetWhitelist
    modifies targetBlacklist, targetWhitelist
    ensures var loaded := LoadAll(MatchingOps(ops, ruleId), retry, fetch, detach);
            match loaded
            case Err(e) =>
              r == Err(e) && targetBlacklist.elems == old(targetBlacklist.elems)
              && targetWhitelist.elems == old(targetWhitelist.elems)
            case Ok((black, white)) =>
              r == Ok(()) && targetBlacklist.elems == old(targetBlacklist.elems) + black
              && targetWhitelist.elems == old(targetWhitelist.elems) + white
  {
    var loaded := LoadMatchList(ruleId, ops, retry, fetch, detach);
    if loaded.Err? {
      return Err(loaded.error);
    }
    var (black, white) := loaded.value;
    HashSetMerge(targetBlacklist, black);
    HashSetMerge(targetWhitelist, white);
    r := Ok(());
  }

  /** A target URL with every "{}" replaced by the message. */
  function Substitute(url: string, msg: string): string
  {
    ReplaceAll(url, "{}", msg)
  }

  /**
   * `url_call`: `callCount` rounds (none when it is 0 or negative), each
   * requesting every target URL once, in order, with the message substituted.
   */
  method UrlCall(msg: string, callUrls: seq<string>, callCount: I32) returns (rounds: seq<seq<string>>)
    ensures |rounds| == (if callCount > 0 then callCount else 0)
    ensures forall k :: 0 <= k < |rounds| ==> |rounds[k]| == |callUrls|
    ensures forall k, j :: 0 <= k < |rounds| && 0 <= j < |callUrls| ==> rounds[k][j] == Substitute(callUrls[j], msg)
  {
    rounds := [];
    var k := 0;
    while k < callCount
      invariant 0 <= k && |rounds| == k
      invariant callCount > 0 ==> k <= callCount
      invariant callCount <= 0 ==> k == 0
      invariant forall r :: 0 <= r < k ==> |rounds[r]| == |callUrls|
      invariant forall r, j :: 0 <= r < k && 0 <= j < |callUrls| ==> rounds[r][j] == Substitute(callUrls[j], msg)
    {
      var requests: seq<string> := [];
      var j := 0;
      while j < |callUrls|
        invariant j <= |callUrls| && |requests| == j
        invariant forall i :: 0 <= i < j ==> requests[i] == Substitute(callUrls[i], msg)
      {
        requests := requests + [Substitute(callUrls[j], msg)];
        j := j + 1;
      }
      rounds := rounds + [requests];
      k := k + 1;
    }
  }

  /**
   * The first "{}" of a URL is where the message goes: the text before it is
   * kept, and the text after it is substituted in turn.
   */
  lemma SubstituteFirstPlaceholder(a: string, b: string, msg: string)
    requires !Contains(a, "{}")
    ensures Substitute(a + "{}" + b, msg) == a + msg + Substitute(b, msg)
  {
    var s := a + ("{}" + b);
    assert a + "{}" + b == s;
    ContainsIffOccurs(a, "{}");
    forall i | 0 <= i < |a|
      ensures !OccursAt(s, "{}", i)
    {
      if i < |a| - 1 {
        assert !OccursAt(a, "{}", i);
        assert s[i..i + 2] == a[i..i + 2];
      } else {
        assert s[i + 1] == '{';
      }
    }
    ReplaceSkip(a, "{}" + b, "{}", msg);
    assert ("{}" + b)[..2] == "{}" && ("{}" + b)[2..] == b;
  }

  /** A target URL without "{}" is requested as written. */
  lemma SubstituteWithoutPlaceholder(url: string, msg: string)
    requires !Contains(url, "{}")
    ensures Substitute(url, msg) == url
  {
    ReplaceAbsent(url, "{}", msg);
  }
}
