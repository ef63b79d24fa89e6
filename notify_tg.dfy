/**
 * Telegram notification forwarding (src/notify/tg.rs).
 *
 * `load_tg` runs two threads joined by a channel of capacity one. The
 * forwarder reads a stream of `SendType` items and decides, with a counter,
 * which of them to hand to the worker and how; the worker turns each item it
 * receives into one Telegram request per subscriber. The forwarder ignores
 * the outcome of every hand-over, so its behaviour is the list of hand-over
 * attempts; which timed attempts reach the worker depends on timing and is
 * not modelled.
 */
module NotifyTg {
  import opened Wrappers
  import opened Num
  import opened Strings

  /** Messages containing this text are rate-limited. */
  const TimedOutMarker: string := "timed out"
  /** Only every this-many-th rate-limited message is forwarded. */
  const SuppressionThreshold: nat := 100
  /** Bound on a timed hand-over to the worker, in microseconds. */
  const HandOverMicros: nat := 10

  datatype SendType = Msg(body: string) | File(path: string)

  /** The `Debug` text of an item. */
  function DebugText(m: SendType): (t: string)
    ensures m.Msg? ==> t == "消息： " + m.body
    ensures m.File? ==> t == "文件： " + m.path
  {
    match m
    case Msg(body) => "消息： " + body
    case File(path) => "文件： " + path
  }

  /** Distinct items have distinct `Debug` texts, so the log identifies the item. */
  lemma DebugTextInjective(a: SendType, b: SendType)
    requires DebugText(a) == DebugText(b)
    ensures a == b
  {
    var msgTag, fileTag := "消息： ", "文件： ";
    assert |msgTag| == |fileTag| == 4;
    assert msgTag[0] != fileTag[0];
    assert DebugText(a)[0] == (if a.Msg? then msgTag[0] else fileTag[0]);
    assert DebugText(b)[0] == (if b.Msg? then msgTag[0] else fileTag[0]);
    if a.Msg? {
      assert a.body == DebugText(a)[4..];
    } else {
      assert a.path == DebugText(a)[4..];
    }
  }

  /** How the forwarder hands an item to the worker: `send_timeout` or blocking `send`. */
  datatype Attempt = Timed(item: SendType) | Blocking(item: SendType)

  /** A message subject to rate limiting. */
  predicate Suppressible(m: SendType)
  {
    m.Msg? && Contains(m.body, TimedOutMarker)
  }

  /** One item of the forwarding loop: the new counter and the hand-over attempted, if any. */
  function ForwardStep(size: nat, m: SendType): (r: (nat, Option<Attempt>))
    ensures !Suppressible(m) ==> r.0 == size
    ensures m.File? ==> r.1 == Some(Blocking(m))
    ensures m.Msg? && !Suppressible(m) ==> r.1 == Some(Timed(m))
    ensures Suppressible(m) ==> (r.1.Some? <==> size + 1 >= SuppressionThreshold)
    ensures Suppressible(m) && r.1.Some? ==> r == (0, Some(Timed(m)))
    ensures Suppressible(m) && r.1.None? ==> r.0 == size + 1
  {
    match m
    case Msg(body) =>
      if Contains(body, TimedOutMarker) then
        if size + 1 >= SuppressionThreshold then (0, Some(Timed(m))) else (size + 1, None)
      else (size, Some(Timed(m)))
    case File(_) => (size, Some(Blocking(m)))
  }

  /** The counter and the attempts after the items `msgs`, starting from counter `size`. */
  function Forward(size: nat, msgs: seq<SendType>): (nat, seq<Attempt>)
    decreases |msgs|
  {
    if |msgs| == 0 then (size, [])
    else
      var (s, attempts) := Forward(size, msgs[..|msgs| - 1]);
      var (s', a) := ForwardStep(s, msgs[|msgs| - 1]);
      (s', if a.Some? then attempts + [a.value] else attempts)
  }

  /** Number of rate-limited messages in `msgs`. */
  function Matching(msgs: seq<SendType>): nat
    decreases |msgs|
  {
    if |msgs| == 0 then 0
    else Matching(msgs[..|msgs| - 1]) + (if Suppressible(msgs[|msgs| - 1]) then 1 else 0)
  }

  /** Number of other items (files and other messages) in `msgs`. */
  function Others(msgs: seq<SendType>): nat
    decreases |msgs|
  {
    if |msgs| == 0 then 0
    else Others(msgs[..|msgs| - 1]) + (if Suppressible(msgs[|msgs| - 1]) then 0 else 1)
  }

  /** Division by 100 of `n` after one more unit. */
  lemma NextDivMod(n: nat)
    ensures (n + 1) % 100 == (if n % 100 == 99 then 0 else n % 100 + 1)
    ensures (n + 1) / 100 == (if n % 100 == 99 then n / 100 + 1 else n / 100)
  {
    var q, r := n / 100, n % 100;
    assert n == 100 * q + r;
    if r == 99 {
      assert n + 1 == 100 * (q + 1);
    } else {
      assert n + 1 == 100 * q + (r + 1);
    }
  }

  /**
   * From a counter below 100, every other item is attempted once and the
   * rate-limited ones are attempted once per hundred: the final counter is the
   * remainder and the number of attempts is the others plus the quotient.
   */
  lemma {:induction false} ForwardCounts(size: nat, msgs: seq<SendType>)
    requires size < SuppressionThreshold
    ensures Forward(size, msgs).0 == (size + Matching(msgs)) % 100
    ensures |Forward(size, msgs).1| == Others(msgs) + (size + Matching(msgs)) / 100
    decreases |msgs|
  {
    if |msgs| == 0 {
    } else {
      var p := msgs[..|msgs| - 1];
      ForwardCounts(size, p);
      NextDivMod(size + Matching(p));
    }
  }

  /** Between items the counter stays within 0..99. */
  lemma CounterBounded(msgs: seq<SendType>)
    ensures Forward(0, msgs).0 < SuppressionThreshold
  {
    ForwardCounts(0, msgs);
  }

  /** In a run made only of rate-limited messages, each one counts. */
  lemma {:induction false} MatchingAll(msgs: seq<SendType>)
    requires forall i :: 0 <= i < |msgs| ==> Suppressible(msgs[i])
    ensures Matching(msgs) == |msgs| && Others(msgs) == 0
    decreases |msgs|
  {
    if |msgs| > 0 {
      MatchingAll(msgs[..|msgs| - 1]);
    }
  }

  /**
   * From counter 0, k rate-limited messages in a row give floor(k/100)
   * attempts, and message i (from 0) is the one attempted exactly when i+1 is
   * a multiple of 100: the 100th, the 200th, and so on.
   */
  lemma SuppressedRun(msgs: seq<SendType>, i: nat)
    requires forall j :: 0 <= j < |msgs| ==> Suppressible(msgs[j])
    requires i < |msgs|
    ensures |Forward(0, msgs).1| == |msgs| / 100
    ensures ForwardStep(Forward(0, msgs[..i]).0, msgs[i]).1.Some? <==> (i + 1) % 100 == 0
  {
    MatchingAll(msgs);
    ForwardCounts(0, msgs);
    MatchingAll(msgs[..i]);
    ForwardCounts(0, msgs[..i]);
    NextDivMod(i);
  }

  /** The forwarding loop of `load_tg`, over the items it reads before the stream closes. */
  method ForwardLoop(msgs: seq<SendType>) returns (attempts: seq<Attempt>)
    ensures attempts == Forward(0, msgs).1
    ensures |attempts| == Others(msgs) + Matching(msgs) / 100
  {
    var size: nat := 0;
    attempts := [];
    var i := 0;
    while i < |msgs|
      invariant i <= |msgs|
      invariant (size, attempts) == Forward(0, msgs[..i])
    {
      var msg := msgs[i];
      assert msgs[..i + 1][..i] == msgs[..i];
      i := i + 1;
      match msg {
        case Msg(body) =>
          if Contains(body, TimedOutMarker) {
            size := size + 1;
            if size >= SuppressionThreshold {
              size := 0;
              attempts := attempts + [Timed(msg)];
            }
            continue;
          }
          attempts := attempts + [Timed(msg)];
        case File(_) =>
          attempts := attempts + [Blocking(msg)];
      }
    }
    assert msgs[..|msgs|] == msgs;
    ForwardCounts(0, msgs);
  }

  /** `struct Config`. */
  datatype Config = Config(debug: bool, token: string, subscribers: seq<string>)

  /** `struct TgBot`: the subscribers as chat ids. */
  datatype TgBot = TgBot(token: string, pushList: seq<int>, debug: bool)

  /**
   * The chat ids of the subscribers, in order, or the index of the first one
   * that is not an i64, where `TgBot::new` panics.
   */
  function ParseSubscribers(subs: seq<string>): (r: Result<seq<int>, nat>)
    ensures r.Ok? ==> |r.value| == |subs| && forall i :: 0 <= i < |subs| ==> ParseI64(subs[i]) == Some(r.value[i])
    ensures r.Err? ==> r.error < |subs| && ParseI64(subs[r.error]).None?
    ensures r.Err? ==> forall i :: 0 <= i < r.error ==> ParseI64(subs[i]).Some?
    ensures r.Ok? <==> forall i :: 0 <= i < |subs| ==> ParseI64(subs[i]).Some?
    decreases |subs|
  {
    if |subs| == 0 then Ok([])
    else
      var init := subs[..|subs| - 1];
      assert forall i :: 0 <= i < |init| ==> init[i] == subs[i];
      match ParseSubscribers(init)
      case Err(i) => Err(i)
      case Ok(ids) =>
        match ParseI64(subs[|subs| - 1])
        case None => Err(|subs| - 1)
        case Some(id) => Ok(ids + [id])
  }

  /** `TgBot::new`: Err is the panic on the first subscriber that is not an integer. */
  function NewTgBot(config: Config): (r: Result<TgBot, nat>)
    ensures r.Ok? ==> r.value.token == config.token && r.value.debug == config.debug
    ensures r.Ok? ==> |r.value.pushList| == |config.subscribers|
    ensures r.Ok? ==> forall i :: 0 <= i < |config.subscribers| ==> ParseI64(config.subscribers[i]) == Some(r.value.pushList[i])
    ensures r.Err? ==> r.error < |config.subscribers| && ParseI64(config.subscribers[r.error]).None?
    ensures r.Err? ==> forall i :: 0 <= i < r.error ==> ParseI64(config.subscribers[i]).Some?
    ensures r.Ok? <==> forall i :: 0 <= i < |config.subscribers| ==> ParseI64(config.subscribers[i]).Some?
  {
    match ParseSubscribers(config.subscribers)
    case Ok(ids) => Ok(TgBot(config.token, ids, config.debug))
    case Err(i) => Err(i)
  }

  /** An empty subscriber string is not an integer, so a bot configured with one panics at once. */
  lemma EmptySubscriberPanics(debug: bool, token: string)
    ensures NewTgBot(Config(debug, token, [""])) == Err(0)
  {
  }

  /** A request to the Telegram API. */
  datatype Request = SendMessage(chat: int, text: string) | SendDocument(chat: int, path: string)

  /** `notify`: in debug mode only a log line; otherwise the text once to every subscriber, in order. */
  method Notify(bot: TgBot, msg: string) returns (sends: seq<Request>)
    ensures bot.debug ==> sends == []
    ensures !bot.debug ==> |sends| == |bot.pushList|
    ensures !bot.debug ==> forall i :: 0 <= i < |sends| ==> sends[i] == SendMessage(bot.pushList[i], msg)
  {
    sends := [];
    if !bot.debug {
      var i := 0;
      while i < |bot.pushList|
        invariant i <= |bot.pushList| && |sends| == i
        invariant forall j :: 0 <= j < i ==> sends[j] == SendMessage(bot.pushList[j], msg)
      {
        sends := sends + [SendMessage(bot.pushList[i], msg)];
        i := i + 1;
      }
    }
  }

  /** `notify_file`: in debug mode only a log line; otherwise the file once to every subscriber, in order. */
  method NotifyFile(bot: TgBot, file: string) returns (sends: seq<Request>)
    ensures bot.debug ==> sends == []
    ensures !bot.debug ==> |sends| == |bot.pushList|
    ensures !bot.debug ==> forall i :: 0 <= i < |sends| ==> sends[i] == SendDocument(bot.pushList[i], file)
  {
    sends := [];
    if !bot.debug {
      var i := 0;
      while i < |bot.pushList|
        invariant i <= |bot.pushList| && |sends| == i
        invariant forall j :: 0 <= j < i ==> sends[j] == SendDocument(bot.pushList[j], file)
      {
        sends := sends + [SendDocument(bot.pushList[i], file)];
        i := i + 1;
      }
    }
  }

  /** `notify_with_button`: its whole body is commented out, so it sends nothing in either mode. */
  method NotifyWithButton(bot: TgBot, msg: string, buttons: seq<(string, string)>) returns (sends: seq<Request>)
    ensures sends == []
  {
    sends := [];
  }

  /** The worker thread of `load_tg`: a message item is notified, a file item sent as a document. */
  method Dispatch(bot: TgBot, item: SendType) returns (sends: seq<Request>)
    ensures bot.debug ==> sends == []
    ensures !bot.debug ==> |sends| == |bot.pushList|
    ensures !bot.debug && item.Msg? ==> forall i :: 0 <= i < |sends| ==> sends[i] == SendMessage(bot.pushList[i], item.body)
    ensures !bot.debug && item.File? ==> forall i :: 0 <= i < |sends| ==> sends[i] == SendDocument(bot.pushList[i], item.path)
  {
    match item {
      case Msg(s) => sends := Notify(bot, s);
      case File(p) => sends := NotifyFile(bot, p);
    }
  }
}
