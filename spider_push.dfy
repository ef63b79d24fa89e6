/**
 * The statistics push client (src/spider/push.rs).
 *
 * One worker per push target runs `PushLoop`: connect, run a session with
 * `ProcessEvents`, wait, reconnect, for ever. A session reacts to a trace of
 * events chosen by its environment: inbound frames, the end or failure of the
 * inbound stream, heartbeat ticks, reports arriving from the broadcast
 * subscription, and a failed receive. Every outbound send carries its own
 * duration and outcome, so the 2-second send bound is a decision of the model
 * rather than a timer. `Run` is the specification of a session over a trace;
 * the lemmas below are about it.
 */
module SpiderPush {
  import opened Wrappers

  /** Interval between heartbeat ticks, in milliseconds. */
  const PingKeepAlive: nat := 30_000
  /** A session fails at a tick once no inbound frame has arrived for this long. */
  const HeartbeatTimeout: nat := 2 * PingKeepAlive
  /** Wait after a failed connection attempt, in milliseconds. */
  const ReconnectionDelay: nat := 3_000
  /** Wait after a session has ended, however it ended, in milliseconds. */
  const SessionRestartDelay: nat := 500
  /** Bound on every outbound send, in milliseconds. */
  const SendTimeout: nat := 2_000
  /** Bound on the WebSocket connect, in milliseconds. */
  const ConnectTimeout: nat := 2_000
  /** Capacity of the broadcast channel that carries reports. */
  const ChannelCapacity: nat := 10
  /** Payload of every heartbeat ping. */
  const PingData: string := "ping"

  /** An outbound send that takes `duration` ms and, if it completes, fails or not. */
  datatype SendAttempt = SendAttempt(duration: nat, failed: bool)

  datatype Event =
    | Inbound(at: int)                            // a frame arrived at clock reading `at`
    | InboundEnd                                  // the peer closed the stream
    | InboundError                                // the stream yielded an error
    | Tick(at: int, ping: SendAttempt)            // the heartbeat ticker fired at `at`
    | Report(payload: string, send: SendAttempt)  // a report came from the subscription
    | ReceiveError                                // the subscription lagged or was closed

  datatype SessionError = HeartbeatTimedOut | SendTimedOut | SendFailed | InboundFailed | ReceiveFailed

  datatype Frame = Ping(data: string) | Text(payload: string)

  datatype Status = Open | Closed(outcome: Result<(), SessionError>)

  /** The state of `process_events`: `last_heartbeat`, whether it has returned, and the frames sent. */
  datatype Session = Session(lastHeartbeat: int, status: Status, sent: seq<Frame>)

  /** A session opened at clock reading `now`: open, nothing sent, and alive at `now`. */
  function Start(now: int): (r: Session)
    ensures r.status.Open? && r.sent == [] && Alive(r, now)
  {
    Session(now, Open, [])
  }

  /** The error a bounded send ends the session with, if any. */
  function SendResult(a: SendAttempt): (r: Option<SessionError>)
    ensures r.None? <==> a.duration < SendTimeout && !a.failed
    ensures a.duration >= SendTimeout ==> r == Some(SendTimedOut)
  {
    if a.duration >= SendTimeout then Some(SendTimedOut)
    else if a.failed then Some(SendFailed)
    else None
  }

  /** The heartbeat check: the last inbound frame is less than the timeout old at `now`. */
  predicate Alive(s: Session, now: int)
  {
    now - s.lastHeartbeat < HeartbeatTimeout
  }

  /** The frame an event asks to send. */
  function Outbound(e: Event): seq<Frame>
  {
    match e
    case Tick(_, _) => [Ping(PingData)]
    case Report(p, _) => [Text(p)]
    case _ => []
  }

  /** One turn of the `select!` loop of an open session. */
  function Step(s: Session, e: Event): (r: Session)
    requires s.status.Open?
    ensures r.status == Closed(Ok(())) <==> e == InboundEnd
    ensures e == InboundError ==> r.status == Closed(Err(InboundFailed))
    ensures e == ReceiveError ==> r.status == Closed(Err(ReceiveFailed))
    ensures e.Inbound? ==> r == s.(lastHeartbeat := e.at)
    ensures !e.Inbound? ==> r.lastHeartbeat == s.lastHeartbeat
    ensures e.Tick? && !Alive(s, e.at) ==> r == s.(status := Closed(Err(HeartbeatTimedOut)))
    ensures e.Tick? && r.status.Open? ==>
              Alive(s, e.at) && Alive(s, e.at + e.ping.duration) && SendResult(e.ping).None?
    ensures e.Report? ==> (r.status.Open? <==> SendResult(e.send).None?)
    ensures e.Report? && r.status.Closed? ==> r.status == Closed(Err(SendResult(e.send).value))
    ensures r.status.Open? ==> r.sent == s.sent + Outbound(e)
    ensures r.sent == s.sent || r.sent == s.sent + Outbound(e)
  {
    match e
    case Inbound(at) => s.(lastHeartbeat := at)
    case InboundEnd => s.(status := Closed(Ok(())))
    case InboundError => s.(status := Closed(Err(InboundFailed)))
    case Tick(at, ping) =>
      if !Alive(s, at) then s.(status := Closed(Err(HeartbeatTimedOut)))
      else if SendResult(ping).Some? then s.(status := Closed(Err(SendResult(ping).value)))
      else
        var pinged := s.(sent := s.sent + [Ping(PingData)]);
        if !Alive(s, at + ping.duration) then pinged.(status := Closed(Err(HeartbeatTimedOut)))
        else pinged
    case Report(payload, send) =>
      if SendResult(send).Some? then s.(status := Closed(Err(SendResult(send).value)))
      else s.(sent := s.sent + [Text(payload)])
    case ReceiveError => s.(status := Closed(Err(ReceiveFailed)))
  }

  /**
   * A session opened at `start` after the events `evs`; once closed it
   * ignores the rest. The frames sent are always the first of those the
   * events ask for, and while the session is open they are all of them, in
   * order, and `last_heartbeat` is the time of the last inbound frame, or the
   * start.
   */
  function Run(start: int, evs: seq<Event>): (r: Session)
    ensures r.sent <= AllOutbound(evs)
    ensures r.status.Open? ==> r.sent == AllOutbound(evs)
    ensures r.status.Open? ==> r.lastHeartbeat == LastInbound(start, evs)
    decreases |evs|
  {
    if |evs| == 0 then Start(start)
    else
      var prev := Run(start, evs[..|evs| - 1]);
      if prev.status.Closed? then prev else Step(prev, evs[|evs| - 1])
  }

  /** Clock reading of the last inbound frame of `evs`, or `start` when there is none. */
  function LastInbound(start: int, evs: seq<Event>): int
    decreases |evs|
  {
    if |evs| == 0 then start
    else if evs[|evs| - 1].Inbound? then evs[|evs| - 1].at
    else LastInbound(start, evs[..|evs| - 1])
  }

  /** The frames the events of `evs` ask to send, in order. */
  function AllOutbound(evs: seq<Event>): seq<Frame>
    decreases |evs|
  {
    if |evs| == 0 then [] else AllOutbound(evs[..|evs| - 1]) + Outbound(evs[|evs| - 1])
  }

  /** A session that is open was open after every prefix. */
  lemma {:induction false} OpenPrefix(start: int, evs: seq<Event>, k: nat)
    requires k <= |evs|
    requires Run(start, evs).status.Open?
    ensures Run(start, evs[..k]).status.Open?
    decreases |evs| - k
  {
    if k < |evs| {
      var p := evs[..|evs| - 1];
      assert Run(start, p).status.Open?;
      OpenPrefix(start, p, k);
      assert p[..k] == evs[..k];
    } else {
      assert evs[..k] == evs;
    }
  }

  /** A session that has ended stays ended, whatever events follow. */
  lemma {:induction false} ClosedAbsorbs(start: int, evs: seq<Event>, more: seq<Event>)
    requires Run(start, evs).status.Closed?
    ensures Run(start, evs + more) == Run(start, evs)
    decreases |more|
  {
    if |more| == 0 {
      assert evs + more == evs;
    } else {
      var m := more[..|more| - 1];
      assert (evs + more)[..|evs + more| - 1] == evs + m;
      ClosedAbsorbs(start, evs, m);
    }
  }

  /** A tick that finds the last inbound frame at least the timeout old ends an open session with "heartbeat timeout". */
  lemma HeartbeatEnforced(start: int, evs: seq<Event>, at: int, ping: SendAttempt)
    requires Run(start, evs).status.Open?
    requires at - LastInbound(start, evs) >= HeartbeatTimeout
    ensures Run(start, evs + [Tick(at, ping)]).status == Closed(Err(HeartbeatTimedOut))
    ensures Run(start, evs + [Tick(at, ping)]).sent == Run(start, evs).sent
  {
    assert (evs + [Tick(at, ping)])[..|evs|] == evs;
  }

  /**
   * A session still open after a tick passed the heartbeat check both before
   * the ping and after it, and its ping completed within the send bound.
   */
  lemma LivenessAtTick(start: int, evs: seq<Event>, at: int, ping: SendAttempt)
    requires Run(start, evs + [Tick(at, ping)]).status.Open?
    ensures at - LastInbound(start, evs) < HeartbeatTimeout
    ensures at + ping.duration - LastInbound(start, evs) < HeartbeatTimeout
    ensures ping.duration < SendTimeout
  {
    var all := evs + [Tick(at, ping)];
    assert all[..|all| - 1] == evs;
    assert Run(start, evs).status.Open?;
  }

  /** A session ends with Ok only when the peer has closed the inbound stream. */
  lemma {:induction false} OkOnlyAtStreamEnd(start: int, evs: seq<Event>)
    requires Run(start, evs).status == Closed(Ok(()))
    ensures InboundEnd in evs
    decreases |evs|
  {
    var p := evs[..|evs| - 1];
    if Run(start, p).status.Closed? {
      OkOnlyAtStreamEnd(start, p);
    } else {
      assert evs[|evs| - 1] == InboundEnd;
    }
    assert evs == p + [evs[|evs| - 1]];
  }

  /** An open session takes the next event by one `Step`. */
  lemma RunExtend(start: int, evs: seq<Event>, k: nat)
    requires k < |evs| && Run(start, evs[..k]).status.Open?
    ensures Run(start, evs[..k + 1]) == Step(Run(start, evs[..k]), evs[k])
  {
    assert evs[..k + 1][..k] == evs[..k];
  }

  /** Once a prefix of the events has closed the session, the whole trace ends in the same status. */
  lemma ClosedPrefix(start: int, evs: seq<Event>, k: nat)
    requires k <= |evs| && Run(start, evs[..k]).status.Closed?
    ensures Run(start, evs) == Run(start, evs[..k])
  {
    assert evs[..k] + evs[k..] == evs;
    ClosedAbsorbs(start, evs[..k], evs[k..]);
  }

  /** One arm of the `select!` loop: the event's effect on the heartbeat time and the frames sent, and whether the session returns. */
  method HandleEvent(lastHeartbeat: int, sent: seq<Frame>, e: Event)
    returns (heartbeat: int, outcome: Option<Result<(), SessionError>>, sentAfter: seq<Frame>)
    ensures Session(heartbeat, if outcome.None? then Open else Closed(outcome.value), sentAfter) ==
            Step(Session(lastHeartbeat, Open, sent), e)
  {
    heartbeat, outcome, sentAfter := lastHeartbeat, None, sent;
    match e {
      case Inbound(at) =>
        heartbeat := at;
      case InboundEnd =>
        outcome := Some(Ok(()));
      case InboundError =>
        outcome := Some(Err(InboundFailed));
      case Tick(at, ping) =>
        if at - lastHeartbeat >= HeartbeatTimeout {
          outcome := Some(Err(HeartbeatTimedOut));
        } else {
          var failure := SendResult(ping);
          if failure.Some? {
            outcome := Some(Err(failure.value));
          } else {
            sentAfter := sent + [Ping(PingData)];
            if at + ping.duration - lastHeartbeat >= HeartbeatTimeout {
              outcome := Some(Err(HeartbeatTimedOut));
            }
          }
        }
      case Report(payload, send) =>
        var failure := SendResult(send);
        if failure.Some? {
          outcome := Some(Err(failure.value));
        } else {
          sentAfter := sent + [Text(payload)];
        }
      case ReceiveError =>
        outcome := Some(Err(ReceiveFailed));
    }
  }

  /**
   * `process_events`: consumes the events in order until the session returns.
   * `outcome` is None when the trace ran out with the session still open.
   */
  method ProcessEvents(start: int, events: seq<Event>)
    returns (outcome: Option<Result<(), SessionError>>, sent: seq<Frame>, consumed: nat)
    ensures consumed <= |events|
    ensures Run(start, events[..consumed]).sent == sent
    ensures outcome.None? <==> Run(start, events[..consumed]).status.Open?
    ensures outcome.Some? ==> Run(start, events[..consumed]).status == Closed(outcome.value)
    ensures outcome.None? ==> consumed == |events|
    ensures outcome.Some? ==> 0 < consumed && Run(start, events[..consumed - 1]).status.Open?
    ensures Run(start, events).status == Run(start, events[..consumed]).status
  {
    var lastHeartbeat := start;
    sent := [];
    outcome := None;
    consumed := 0;
    while consumed < |events| && outcome.None?
      invariant consumed <= |events|
      invariant Run(start, events[..consumed]) ==
                Session(lastHeartbeat, if outcome.None? then Open else Closed(outcome.value), sent)
      invariant outcome.Some? ==> 0 < consumed && Run(start, events[..consumed - 1]).status.Open?
    {
      RunExtend(start, events, consumed);
      lastHeartbeat, outcome, sent := HandleEvent(lastHeartbeat, sent, events[consumed]);
      consumed := consumed + 1;
    }
    if outcome.Some? {
      ClosedPrefix(start, events, consumed);
    } else {
      assert events[..consumed] == events;
    }
  }

  /** One pass of the reconnect loop: the connect failed, or a session ran over `events`. */
  datatype Attempt = ConnectFailed | Connected(start: int, events: seq<Event>)

  /** The wait after an attempt, or None when its session never returns. */
  function ReconnectDelay(a: Attempt): (d: Option<nat>)
    ensures a.ConnectFailed? ==> d == Some(ReconnectionDelay)
    ensures a.Connected? ==> (d.Some? <==> Run(a.start, a.events).status.Closed?)
    ensures a.Connected? && d.Some? ==> d.value == SessionRestartDelay
  {
    match a
    case ConnectFailed => Some(ReconnectionDelay)
    case Connected(start, events) =>
      if Run(start, events).status.Closed? then Some(SessionRestartDelay) else None
  }

  /**
   * `push_loop`: the loop has no exit of its own. It waits 3000 ms after every
   * failed connect and 500 ms after every session, Ok or Err, and only stops
   * inside a session that stays open or when the attempts run out.
   */
  method PushLoop(attempts: seq<Attempt>) returns (delays: seq<nat>)
    ensures |delays| <= |attempts|
    ensures forall j :: 0 <= j < |delays| ==> ReconnectDelay(attempts[j]) == Some(delays[j])
    ensures |delays| < |attempts| ==> ReconnectDelay(attempts[|delays|]).None?
  {
    delays := [];
    var i := 0;
    while i < |attempts|
      invariant i <= |attempts| && |delays| == i
      invariant forall j :: 0 <= j < i ==> ReconnectDelay(attempts[j]) == Some(delays[j])
    {
      match attempts[i] {
        case ConnectFailed =>
          delays := delays + [ReconnectionDelay];
          i := i + 1;
          continue;
        case Connected(start, events) =>
          var outcome, _, _ := ProcessEvents(start, events);
          if outcome.None? {
            return;
          }
      }
      delays := delays + [SessionRestartDelay];
      i := i + 1;
    }
  }

  /** The sender side of a broadcast channel: its capacity and its live receivers. */
  class Broadcast {
    const capacity: nat
    var receivers: nat

    /** `channel(capacity)`; the receiver it returns is dropped at once, so none is live. */
    constructor (capacity: nat)
      ensures this.capacity == capacity && receivers == 0
    {
      this.capacity := capacity;
      receivers := 0;
    }

    /** `subscribe`: one more live receiver, identified by its position. */
    method Subscribe() returns (id: nat)
      modifies this
      ensures receivers == old(receivers) + 1 && id == old(receivers)
    {
      id := receivers;
      receivers := receivers + 1;
    }

    /** `send`: fails, handing the message back, iff no receiver is live; else reports how many will see it. */
    method Send(msg: string) returns (r: Result<nat, string>)
      ensures r.Err? <==> receivers == 0
      ensures r.Err? ==> r.error == msg
      ensures r.Ok? ==> r.value == receivers
    {
      if receivers == 0 {
        r := Err(msg);
      } else {
        r := Ok(receivers);
      }
    }
  }

  /** `init_websocket`: one subscription and one push worker per target, in order. */
  method InitWebsocket(targets: seq<string>, chan: Broadcast) returns (workers: seq<(string, nat)>)
    modifies chan
    ensures chan.receivers == old(chan.receivers) + |targets|
    ensures |workers| == |targets|
    ensures forall j :: 0 <= j < |targets| ==> workers[j] == (targets[j], old(chan.receivers) + j)
  {
    workers := [];
    var i := 0;
    while i < |targets|
      invariant i <= |targets| && |workers| == i
      invariant chan.receivers == old(chan.receivers) + i
      invariant forall j :: 0 <= j < i ==> workers[j] == (targets[j], old(chan.receivers) + j)
    {
      var id := chan.Subscribe();
      workers := workers + [(targets[i], id)];
      i := i + 1;
    }
  }

  /** `load_broadcast_chan`: a channel of capacity 10, with workers only for a non-empty target list. */
  method LoadBroadcastChan(targets: seq<string>) returns (chan: Broadcast, workers: seq<(string, nat)>)
    ensures fresh(chan) && chan.capacity == ChannelCapacity
    ensures chan.receivers == |targets| && |workers| == |targets|
    ensures forall j :: 0 <= j < |targets| ==> workers[j] == (targets[j], j)
  {
    chan := new Broadcast(ChannelCapacity);
    workers := [];
    if |targets| != 0 {
      workers := InitWebsocket(targets, chan);
    }
  }
}
