/** The agent-facing WebSocket endpoint (app/api/ws_tunnel.py): admission, the
    receive loop and the heartbeat.

    The two coroutines of one connection, the receive loop and the heartbeat
    task, are modelled by one sequence of events in the order the event loop ran
    them: a text frame received, or one heartbeat round (a ping, the wait for a
    pong, the check). The end of the sequence is the peer disconnecting. What the
    loop does is first stated as a function of a pure session state (`Step`,
    `Run`), then implemented on the manager, the tunnel and the socket. */
module WsTunnel {
  import opened Common
  import opened KvStore
  import opened Registry
  import opened Transport
  import opened ControlPlaneApi
  import opened ControlPlane
  import opened Manager

  const PolicyViolation := 1008
  const MessageTooBig := 1009
  const InternalError := 1011

  // ---------------------------------------------------------------- admission

  datatype Admission = Admit | Refuse(code: int, reason: string)

  /** The `x-tunnel-token` header, absent or empty counting as missing. */
  predicate HasToken(header: Option<string>) {
    header.Some? && header.value != ""
  }

  /** The checks on the Control Plane's answer, in the source's order. */
  function JudgeValidation(v: Option<Validation>): (a: Admission)
    ensures a == Admit <==> v.Some? && v.value.valid == Some(true) && v.value.status == Some("active")
    ensures a == Refuse(InternalError, "Control Plane unavailable") <==> v.None? || !NonEmpty(v.value)
    ensures a.Refuse? && a.code != InternalError ==> a.code == PolicyViolation
    ensures v.Some? && NonEmpty(v.value) && v.value.valid != Some(true) ==>
      a == Refuse(PolicyViolation, "Invalid tunnel credentials: " + v.value.status.GetOr("invalid"))
    ensures v.Some? && NonEmpty(v.value) && v.value.valid == Some(true) && v.value.status != Some("active") ==>
      a == Refuse(PolicyViolation, "Tunnel status: " + v.value.status.GetOr("None"))
  {
    if v.None? || !NonEmpty(v.value) then
      Refuse(InternalError, "Control Plane unavailable")
    else if v.value.valid != Some(true) then
      Refuse(PolicyViolation, "Invalid tunnel credentials: " + v.value.status.GetOr("invalid"))
    else if v.value.status != Some("active") then
      Refuse(PolicyViolation, "Tunnel status: " + v.value.status.GetOr("None"))
    else
      Admit
  }

  /** An answer object holding only keys the gateway does not read is truthy: it
      is refused as invalid credentials, not as an unavailable Control Plane. */
  lemma UnknownKeysAreInvalidCredentials(v: Validation)
    requires v.valid.None? && v.status.None? && v.otherKeys
    ensures JudgeValidation(Some(v)) == Refuse(PolicyViolation, "Invalid tunnel credentials: invalid")
  {
  }

  // ---------------------------------------------------------------- frames

  /** What `json.loads` makes of a text frame. */
  datatype Parsed = NotJson | NotObject | Object(msg: Message)

  /** A text frame (its UTF-8 length and its parse), or one heartbeat round
      whose ping send succeeded or raised. */
  datatype Inbound = Text(byteLen: nat, parsed: Parsed) | HeartbeatRound(pingSent: bool)

  /** Something the event loop ran, at event-loop time `at`. */
  datatype Event = Event(at: int, inbound: Inbound)

  datatype Action =
    | Skip
    | CloseTooLarge
    | DropInvalidJson
      /** `data.get` on a JSON value that is not an object raises out of the loop. */
    | Abort
    | Resolve(requestId: string, response: Message)
    | RecordPong
    | ReplyPong
    | Ignore

  /** The branch on `type` of a decoded object. */
  function Dispatch(m: Message): (a: Action)
    ensures a.Resolve? <==> m.msgType == Some("response") && m.requestId.Some? && m.requestId.value != ""
    ensures a.Resolve? ==> a.requestId == m.requestId.value && a.response == m
    ensures a == RecordPong <==> m.msgType == Some("pong")
    ensures a == ReplyPong <==> m.msgType == Some("ping")
    ensures a.Resolve? || a == RecordPong || a == ReplyPong || a == Ignore
  {
    if m.msgType == Some("response") then
      if m.requestId.Some? && m.requestId.value != "" then Resolve(m.requestId.value, m) else Ignore
    else if m.msgType == Some("pong") then RecordPong
    else if m.msgType == Some("ping") then ReplyPong
    else Ignore
  }

  /** What the receive loop does with one text frame. */
  function TextAction(byteLen: nat, parsed: Parsed, maxBytes: nat): (a: Action)
    ensures a == Skip <==> byteLen == 0
    ensures a == CloseTooLarge <==> byteLen > maxBytes
    ensures a == DropInvalidJson <==> 0 < byteLen <= maxBytes && parsed == NotJson
    ensures a == Abort <==> 0 < byteLen <= maxBytes && parsed == NotObject
    ensures 0 < byteLen <= maxBytes && parsed.Object? ==> a == Dispatch(parsed.msg)
  {
    if byteLen == 0 then Skip
    else if byteLen > maxBytes then CloseTooLarge
    else match parsed
      case NotJson => DropInvalidJson
      case NotObject => Abort
      case Object(m) => Dispatch(m)
  }

  /** How the receive loop ends: the peer disconnected, the gateway closed an
      oversized frame with 1009, or a non-object frame raised. */
  datatype LoopEnd = PeerDisconnected | ClosedTooLarge | NotAnObject

  function ActionOf(ev: Event, cfg: Settings): Action {
    if ev.inbound.Text? then TextAction(ev.inbound.byteLen, ev.inbound.parsed, cfg.maxWsPayloadBytes) else Ignore
  }

  /** The event leaves the receive loop. */
  predicate StopsAt(ev: Event, cfg: Settings) {
    ActionOf(ev, cfg) == CloseTooLarge || ActionOf(ev, cfg) == Abort
  }

  function StopReason(ev: Event, cfg: Settings): LoopEnd {
    if ActionOf(ev, cfg) == CloseTooLarge then ClosedTooLarge else NotAnObject
  }

  // ---------------------------------------------------------------- heartbeat

  datatype Beat = KeepBeating | CloseAndStop | StopQuietly

  /** One heartbeat round, after the ping was attempted and the pong timeout slept:
      a failed ping closes; a tunnel gone from the table stops quietly; a last pong
      older than interval + timeout closes; otherwise the task sleeps again. */
  function HeartbeatCheck(pingSent: bool, lastPong: Option<int>, now: int, interval: nat, timeout: nat): (b: Beat)
    ensures b == KeepBeating <==> pingSent && lastPong.Some? && now - lastPong.value <= interval + timeout
    ensures b == StopQuietly <==> pingSent && lastPong.None?
  {
    if !pingSent then CloseAndStop
    else if lastPong.None? then StopQuietly
    else if now - lastPong.value > interval + timeout then CloseAndStop
    else KeepBeating
  }

  // ---------------------------------------------------------------- session

  /** What one connection's handling can change: the tunnel's last pong and
      heartbeat task, the frames sent and the close frame, the ids still in
      `pending_requests`, and the response delivered to each request answered. */
  datatype Session = Session(
    lastPong: int,
    heartbeat: TaskState,
    sends: seq<OutFrame>,
    closed: Option<CloseFrame>,
    waiting: set<string>,
    answers: map<string, Message>)

  function Step(st: Session, ev: Event, cfg: Settings): Session {
    match ev.inbound
    case HeartbeatRound(pingSent) =>
      if st.heartbeat != Running then st
      else
        var pinged := st.(sends := st.sends + [PingFrame]);
        match HeartbeatCheck(pingSent, Some(st.lastPong), ev.at, cfg.wsPingIntervalSeconds, cfg.wsPongTimeoutSeconds) {
          case KeepBeating => pinged
          case CloseAndStop => pinged.(closed := Some(CloseFrame(NormalClosure, "")), heartbeat := Finished)
          case StopQuietly => pinged.(heartbeat := Finished)
        }
    case Text(_, _) =>
      match ActionOf(ev, cfg)
      case CloseTooLarge => st.(closed := Some(CloseFrame(MessageTooBig, "")))
      case Resolve(rid, m) =>
        st.(waiting := st.waiting - {rid},
            answers := if rid in st.waiting then st.answers[rid := m] else st.answers)
      case RecordPong => st.(lastPong := ev.at)
      case ReplyPong => st.(sends := st.sends + [PongFrame])
      case _ => st
  }

  /** The receive loop over the events, up to and including the one that stops it. */
  function Run(st: Session, events: seq<Event>, cfg: Settings): Session
    decreases |events|
  {
    if events == [] then st
    else if StopsAt(events[0], cfg) then Step(st, events[0], cfg)
    else Run(Step(st, events[0], cfg), events[1..], cfg)
  }

  function Ending(events: seq<Event>, cfg: Settings): LoopEnd
    decreases |events|
  {
    if events == [] then PeerDisconnected
    else if StopsAt(events[0], cfg) then StopReason(events[0], cfg)
    else Ending(events[1..], cfg)
  }

  /** The reference definition of request correlation: the first response frame
      for `rid` that the receive loop reads. */
  function FirstResponse(events: seq<Event>, rid: string, cfg: Settings): Option<Message>
    decreases |events|
  {
    if events == [] then None
    else
      var a := ActionOf(events[0], cfg);
      if a.Resolve? && a.requestId == rid then Some(a.response)
      else if StopsAt(events[0], cfg) then None
      else FirstResponse(events[1..], rid, cfg)
  }

  /** Every request is either still waiting or answered, never both; answers are
      never overwritten, and an id is answered only while it is waiting. */
  lemma {:induction false} AnswersAreFinal(st: Session, events: seq<Event>, cfg: Settings)
    requires st.waiting !! st.answers.Keys
    ensures var r := Run(st, events, cfg);
      && r.waiting !! r.answers.Keys
      && r.waiting + r.answers.Keys == st.waiting + st.answers.Keys
      && forall k | k in st.answers :: k in r.answers && r.answers[k] == st.answers[k]
    decreases |events|
  {
    if events != [] && !StopsAt(events[0], cfg) {
      AnswersAreFinal(Step(st, events[0], cfg), events[1..], cfg);
    }
  }

  /** A waiting request ends up answered exactly when the loop reads a response for
      it, and the answer is the first such response. */
  lemma {:induction false} ResponsesReachTheirRequests(st: Session, events: seq<Event>, rid: string, cfg: Settings)
    requires st.waiting !! st.answers.Keys && rid in st.waiting
    ensures var r := Run(st, events, cfg);
      && (rid in r.answers <==> FirstResponse(events, rid, cfg).Some?)
      && (rid in r.answers ==> r.answers[rid] == FirstResponse(events, rid, cfg).value)
      && (rid in r.waiting <==> FirstResponse(events, rid, cfg).None?)
    decreases |events|
  {
    if events != [] {
      var a := ActionOf(events[0], cfg);
      if a.Resolve? && a.requestId == rid {
        var st1 := Step(st, events[0], cfg);
        assert rid in st1.answers && st1.answers[rid] == a.response && rid !in st1.waiting;
        if !StopsAt(events[0], cfg) {
          AnswersAreFinal(st1, events[1..], cfg);
        }
      } else if !StopsAt(events[0], cfg) {
        ResponsesReachTheirRequests(Step(st, events[0], cfg), events[1..], rid, cfg);
      }
    }
  }

  /** Nothing after the frame that stops the loop is ever read. */
  lemma {:induction false} StopIsFinal(st: Session, events: seq<Event>, i: nat, cfg: Settings)
    requires i < |events| && StopsAt(events[i], cfg)
    ensures Run(st, events, cfg) == Run(st, events[..i + 1], cfg)
    ensures Ending(events, cfg) == Ending(events[..i + 1], cfg)
    decreases i
  {
    if i > 0 && !StopsAt(events[0], cfg) {
      assert events[..i + 1][1..] == events[1..][..i];
      StopIsFinal(Step(st, events[0], cfg), events[1..], i - 1, cfg);
    }
  }

  /** Once the heartbeat task has returned (or was never started), it stays so
      and the gateway sends no more pings; frames are only ever appended. */
  lemma {:induction false} NoPingsAfterHeartbeat(st: Session, events: seq<Event>, cfg: Settings)
    requires st.heartbeat != Running
    ensures var r := Run(st, events, cfg);
      && r.heartbeat == st.heartbeat
      && st.sends <= r.sends
      && forall j | |st.sends| <= j < |r.sends| :: r.sends[j] == PongFrame
    decreases |events|
  {
    if events != [] && !StopsAt(events[0], cfg) {
      var st1 := Step(st, events[0], cfg);
      NoPingsAfterHeartbeat(st1, events[1..], cfg);
    }
  }

  /** No event before index `i` stops the loop. */
  predicate NoStopBefore(events: seq<Event>, i: nat, cfg: Settings)
    requires i <= |events|
  {
    forall j | 0 <= j < i :: !StopsAt(events[j], cfg)
  }

  /** An oversized frame is the only way the loop ends with a 1009 close. */
  lemma {:induction false} TooLargeCloses(st: Session, events: seq<Event>, cfg: Settings)
    ensures Ending(events, cfg) == ClosedTooLarge ==> Run(st, events, cfg).closed == Some(CloseFrame(MessageTooBig, ""))
    ensures Ending(events, cfg) == ClosedTooLarge <==>
      exists i | 0 <= i < |events| :: ActionOf(events[i], cfg) == CloseTooLarge && NoStopBefore(events, i, cfg)
    decreases |events|
  {
    if events != [] {
      if StopsAt(events[0], cfg) {
        if ActionOf(events[0], cfg) == CloseTooLarge {
          assert NoStopBefore(events, 0, cfg);
        }
      } else {
        TooLargeCloses(Step(st, events[0], cfg), events[1..], cfg);
        if Ending(events, cfg) == ClosedTooLarge {
          var i :| 0 <= i < |events[1..]| && ActionOf(events[1..][i], cfg) == CloseTooLarge &&
            NoStopBefore(events[1..], i, cfg);
          assert ActionOf(events[i + 1], cfg) == CloseTooLarge;
          assert NoStopBefore(events, i + 1, cfg) by {
            forall j | 0 <= j < i + 1 ensures !StopsAt(events[j], cfg) {
              if j > 0 { assert events[j] == events[1..][j - 1]; }
            }
          }
        } else {
          forall i | 0 <= i < |events| && ActionOf(events[i], cfg) == CloseTooLarge
            ensures !NoStopBefore(events, i, cfg)
          {
            assert i > 0;
            assert events[i] == events[1..][i - 1];
            assert !NoStopBefore(events[1..], i - 1, cfg);
            var j :| 0 <= j < i - 1 && StopsAt(events[1..][j], cfg);
            assert StopsAt(events[j + 1], cfg);
          }
        }
      }
    }
  }

  // ---------------------------------------------------------------- the handler

  /** The session state as the manager, the tunnel and the socket hold it. */
  ghost function View(mgr: TunnelManager, t: Tunnel, answers: map<string, Message>): Session
    reads mgr, t, t.websocket
  {
    Session(t.lastPong, t.heartbeatTask, t.websocket.sends, t.websocket.closed, mgr.pendingRequests.Keys, answers)
  }

  /** The future a response frame fulfils, if any. */
  function Touched(pending: map<string, Future>, ev: Event, cfg: Settings): set<Future> {
    var a := ActionOf(ev, cfg);
    if a.Resolve? && a.requestId in pending then {pending[a.requestId]} else {}
  }

  /** The result and the cancelled flag of each future of a table. */
  ghost function FutureStates(pending: map<string, Future>): map<string, (Option<Message>, bool)>
    reads FuturesOf(pending)
  {
    map k | k in pending :: (pending[k].result, pending[k].cancelled)
  }

  /** Request correlation, against the table `orig` the connection started with
      and the states `init` its futures then had: the table has only lost entries,
      an answered id is no longer pending, a future already done at the start is
      as it was, and every other future holds exactly the answer delivered for
      its id, or nothing. */
  ghost predicate Correlated(pending: map<string, Future>, orig: map<string, Future>,
                             init: map<string, (Option<Message>, bool)>, answers: map<string, Message>)
    reads FuturesOf(orig)
  {
    && SubTable(pending, orig) && DistinctFutures(orig) && init.Keys == orig.Keys
    && answers.Keys <= orig.Keys && answers.Keys !! pending.Keys
    && forall k | k in orig ::
         if init[k].0.Some? || init[k].1 then (orig[k].result, orig[k].cancelled) == init[k]
         else orig[k].result == (if k in answers then Some(answers[k]) else None) && !orig[k].cancelled
  }

  /** At the start of a connection, nothing has been delivered. */
  lemma CorrelatedAtStart(mgr: TunnelManager)
    requires mgr.Valid()
    ensures Correlated(mgr.pendingRequests, mgr.pendingRequests, FutureStates(mgr.pendingRequests), map[])
  {
  }

  /** Each future that was waiting when the connection started holds the first
      response frame the receive loop read for its id, or nothing if there was none. */
  lemma DeliveredIsFirstResponse(pending: map<string, Future>, orig: map<string, Future>,
                                 init: map<string, (Option<Message>, bool)>, st: Session,
                                 events: seq<Event>, cfg: Settings)
    requires st.waiting == orig.Keys && st.answers == map[]
    requires Correlated(pending, orig, init, Run(st, events, cfg).answers)
    ensures forall k | k in orig && init[k] == (None, false) ::
      orig[k].result == FirstResponse(events, k, cfg) && !orig[k].cancelled
  {
    forall k | k in orig && init[k] == (None, false)
      ensures orig[k].result == FirstResponse(events, k, cfg)
    {
      ResponsesReachTheirRequests(st, events, k, cfg);
    }
  }

  /** One round of `_heartbeat_loop`: send a ping, then, unless that failed, look
      the tunnel up and check its last pong; close the socket when the round says so. */
  method HeartbeatTick(mgr: TunnelManager, tunnelId: string, ws: WebSocket, pingSent: bool, now: int, cfg: Settings)
    returns (b: Beat)
    modifies ws
    ensures var lastPong := if tunnelId in mgr.activeTunnels then Some(mgr.activeTunnels[tunnelId].lastPong) else None;
      b == HeartbeatCheck(pingSent, lastPong, now, cfg.wsPingIntervalSeconds, cfg.wsPongTimeoutSeconds)
    ensures ws.sends == old(ws.sends) + [PingFrame] && ws.accepted == old(ws.accepted)
    ensures ws.closed == if b == CloseAndStop then Some(CloseFrame(NormalClosure, "")) else old(ws.closed)
  {
    ws.Send(PingFrame);
    if !pingSent {
      ws.Close(NormalClosure, "");
      return CloseAndStop;
    }
    if tunnelId !in mgr.activeTunnels {
      return StopQuietly;
    }
    var t := mgr.activeTunnels[tunnelId];
    if now - t.lastPong > cfg.wsPingIntervalSeconds + cfg.wsPongTimeoutSeconds {
      ws.Close(NormalClosure, "");
      return CloseAndStop;
    }
    return KeepBeating;
  }

  /** A response frame for `rid`: `resolve_request`, with its delivery recorded. */
  method HandleResponse(mgr: TunnelManager, rid: string, m: Message,
                        ghost orig: map<string, Future>, ghost init: map<string, (Option<Message>, bool)>,
                        ghost answers: map<string, Message>)
    returns (ghost answers': map<string, Message>)
    requires mgr.Valid() && Correlated(mgr.pendingRequests, orig, init, answers)
    modifies mgr, if rid in mgr.pendingRequests then {mgr.pendingRequests[rid]} else {}
    ensures mgr.Valid() && Correlated(mgr.pendingRequests, orig, init, answers')
    ensures mgr.pendingRequests == old(mgr.pendingRequests) - {rid}
    ensures mgr.activeTunnels == old(mgr.activeTunnels)
    ensures answers' == if rid in old(mgr.pendingRequests) then answers[rid := m] else answers
  {
    answers' := if rid in mgr.pendingRequests then answers[rid := m] else answers;
    mgr.ResolveRequest(rid, m);
  }

  /** A heartbeat round, which does anything only while the heartbeat task runs;
      the task returns when the round does not keep beating. */
  method HandleHeartbeat(mgr: TunnelManager, tunnelId: string, t: Tunnel, pingSent: bool, now: int, cfg: Settings)
    requires mgr.Valid() && tunnelId in mgr.activeTunnels && mgr.activeTunnels[tunnelId] == t
    modifies t, t.websocket
    ensures t.websocket.accepted == old(t.websocket.accepted)
    ensures var st := old(View(mgr, t, map[]));
      View(mgr, t, map[]) == Step(st, Event(now, HeartbeatRound(pingSent)), cfg)
  {
    if t.heartbeatTask == Running {
      var b := HeartbeatTick(mgr, tunnelId, t.websocket, pingSent, now, cfg);
      if b != KeepBeating {
        t.heartbeatTask := Finished;
      }
    }
  }

  /** A text frame, dispatched as the receive loop does. */
  method HandleText(mgr: TunnelManager, tunnelId: string, t: Tunnel, byteLen: nat, parsed: Parsed, now: int,
                    cfg: Settings, ghost orig: map<string, Future>, ghost init: map<string, (Option<Message>, bool)>,
                    ghost answers: map<string, Message>)
    returns (stop: bool, ghost answers': map<string, Message>)
    requires mgr.Valid() && tunnelId in mgr.activeTunnels && mgr.activeTunnels[tunnelId] == t
    requires Correlated(mgr.pendingRequests, orig, init, answers)
    modifies mgr, t, t.websocket, Touched(mgr.pendingRequests, Event(now, Text(byteLen, parsed)), cfg)
    ensures mgr.Valid() && mgr.activeTunnels == old(mgr.activeTunnels)
    ensures Correlated(mgr.pendingRequests, orig, init, answers')
    ensures stop == StopsAt(Event(now, Text(byteLen, parsed)), cfg)
    ensures View(mgr, t, answers') == Step(old(View(mgr, t, answers)), Event(now, Text(byteLen, parsed)), cfg)
    ensures t.websocket.accepted == old(t.websocket.accepted)
  {
    answers' := answers;
    var a := TextAction(byteLen, parsed, cfg.maxWsPayloadBytes);
    stop := a == CloseTooLarge || a == Abort;
    match a {
    case CloseTooLarge =>
      t.websocket.Close(MessageTooBig, "");
    case Resolve(rid, m) =>
      answers' := HandleResponse(mgr, rid, m, orig, init, answers);
    case RecordPong =>
      mgr.SetPong(tunnelId, now);
    case ReplyPong =>
      t.websocket.Send(PongFrame);
    case _ =>
    }
  }

  /** One event of the connection, applied to the manager, the tunnel and its socket. */
  method HandleEvent(mgr: TunnelManager, tunnelId: string, t: Tunnel, ev: Event, cfg: Settings,
                     ghost orig: map<string, Future>, ghost init: map<string, (Option<Message>, bool)>,
                     ghost answers: map<string, Message>)
    returns (stop: bool, ghost answers': map<string, Message>)
    requires mgr.Valid() && tunnelId in mgr.activeTunnels && mgr.activeTunnels[tunnelId] == t
    requires Correlated(mgr.pendingRequests, orig, init, answers)
    modifies mgr, t, t.websocket, Touched(mgr.pendingRequests, ev, cfg)
    ensures mgr.Valid() && mgr.activeTunnels == old(mgr.activeTunnels)
    ensures Correlated(mgr.pendingRequests, orig, init, answers')
    ensures stop == StopsAt(ev, cfg)
    ensures View(mgr, t, answers') == Step(old(View(mgr, t, answers)), ev, cfg)
    ensures t.websocket.accepted == old(t.websocket.accepted)
  {
    match ev.inbound {
    case HeartbeatRound(pingSent) =>
      HandleHeartbeat(mgr, tunnelId, t, pingSent, ev.at, cfg);
      stop, answers' := false, answers;
    case Text(byteLen, parsed) =>
      stop, answers' := HandleText(mgr, tunnelId, t, byteLen, parsed, ev.at, cfg, orig, init, answers);
    }
  }

  /** The receive loop: events are handled in order until one stops the loop or
      the peer disconnects. */
  method ReceiveLoop(mgr: TunnelManager, tunnelId: string, t: Tunnel, events: seq<Event>, cfg: Settings,
                     ghost orig: map<string, Future>, ghost init: map<string, (Option<Message>, bool)>)
    returns (end: LoopEnd, ghost answers: map<string, Message>)
    requires mgr.Valid() && tunnelId in mgr.activeTunnels && mgr.activeTunnels[tunnelId] == t
    requires mgr.pendingRequests == orig && Correlated(orig, orig, init, map[])
    modifies mgr, t, t.websocket, FuturesOf(orig)
    ensures mgr.Valid() && mgr.activeTunnels == old(mgr.activeTunnels)
    ensures end == Ending(events, cfg)
    ensures View(mgr, t, answers) == Run(old(View(mgr, t, map[])), events, cfg)
    ensures t.websocket.accepted == old(t.websocket.accepted)
    ensures Correlated(mgr.pendingRequests, orig, init, answers)
  {
    ghost var st0 := View(mgr, t, map[]);
    answers := map[];
    end := PeerDisconnected;
    var i := 0;
    while i < |events|
      invariant 0 <= i <= |events|
      invariant mgr.Valid() && mgr.activeTunnels == old(mgr.activeTunnels)
      invariant t.websocket.accepted == old(t.websocket.accepted)
      invariant Run(View(mgr, t, answers), events[i..], cfg) == Run(st0, events, cfg)
      invariant Ending(events[i..], cfg) == Ending(events, cfg)
      invariant Correlated(mgr.pendingRequests, orig, init, answers)
    {
      var ev := events[i];
      assert events[i..][1..] == events[i + 1..];
      var stop;
      stop, answers := HandleEvent(mgr, tunnelId, t, ev, cfg, orig, init, answers);
      if stop {
        end := StopReason(ev, cfg);
        return;
      }
      i := i + 1;
    }
  }

  /** How one connection's handling ended. */
  datatype ConnectionEnd =
      /** Accepted and then closed by the gateway before any session. */
    | Refused(close: CloseFrame)
      /** A `RuntimeError` from a client used before `connect` escaped the handler. */
    | Raised(message: string)
      /** The tunnel was registered and served; the receive loop ended as given. */
    | Served(end: LoopEnd)

  /** The state a served connection leaves once its tunnel is removed: the
      receive loop ended as `Ending` says; the socket, the pending ids, the
      answers delivered and the tunnel's last pong are those of `Run` from `s0`;
      a heartbeat still running was cancelled; and the registry deregistered
      the tunnel from the store `db0`. */
  ghost predicate SessionDone(mgr: TunnelManager, t: Tunnel, tunnelId: string,
                              db0: Store, s0: Session, events: seq<Event>, cfg: Settings,
                              end: LoopEnd, answers: map<string, Message>)
    reads mgr, mgr.registry, mgr.registry.redis, t, t.websocket
  {
    var s := Run(s0, events, cfg);
    && end == Ending(events, cfg)
    && t.websocket.sends == s.sends && t.websocket.closed == s.closed
    && mgr.pendingRequests.Keys == s.waiting && answers == s.answers
    && t.lastPong == s.lastPong
    && t.heartbeatTask == (if s.heartbeat == Running then Cancelled else s.heartbeat)
    && (mgr.registry.Ready() ==> mgr.registry.redis.data == RemoveEffect(db0, mgr.registry.podId.value, tunnelId))
    && (!mgr.registry.Ready() && mgr.registry.redis != null ==> mgr.registry.redis.data == db0)
  }

  /** A registered tunnel's session: start the heartbeat, run the receive loop,
      and always remove the tunnel afterwards. `db0` is the store and `s0` the
      session state it starts from. */
  method RunSession(mgr: TunnelManager, tunnelId: string, t: Tunnel, events: seq<Event>, cfg: Settings,
                    ghost db0: Store, ghost s0: Session,
                    ghost orig: map<string, Future>, ghost init: map<string, (Option<Message>, bool)>)
    returns (end: LoopEnd, ghost answers: map<string, Message>)
    requires mgr.Valid() && tunnelId in mgr.activeTunnels && mgr.activeTunnels[tunnelId] == t
    requires mgr.registry.redis != null ==> mgr.registry.redis.data == db0
    requires s0 == View(mgr, t, map[]).(heartbeat := Running)
    requires mgr.pendingRequests == orig && Correlated(orig, orig, init, map[])
    modifies mgr, mgr.registry.redis, t, t.websocket, FuturesOf(orig)
    ensures mgr.Valid()
    ensures SessionDone(mgr, t, tunnelId, db0, s0, events, cfg, end, answers)
    ensures mgr.activeTunnels == old(mgr.activeTunnels) - {tunnelId}
    ensures t.websocket.accepted == old(t.websocket.accepted)
    ensures mgr.registry.redis != null ==> mgr.registry.redis.clock == old(mgr.registry.redis.clock)
    ensures Correlated(mgr.pendingRequests, orig, init, answers)
  {
    t.heartbeatTask := Running;
    end, answers := ReceiveLoop(mgr, tunnelId, t, events, cfg, orig, init);
    mgr.RemoveTunnel(tunnelId);
  }

  /** The part of the handler after admission: register, then run the session.
      `db0` is the store, `db1` the store once the tunnel is claimed, `s0` the
      session state a registered tunnel starts from, and `orig`/`init` the
      pending-request table and its futures' states. */
  method Serve(mgr: TunnelManager, tunnelId: string, ws: WebSocket, now: int, events: seq<Event>, cfg: Settings,
               ghost db0: Store, ghost db1: Store, ghost s0: Session,
               ghost orig: map<string, Future>, ghost init: map<string, (Option<Message>, bool)>)
    returns (r: ConnectionEnd, ghost tunnel: Tunnel?, ghost answers: map<string, Message>)
    requires mgr.Valid()
    requires mgr.registry.redis != null ==> mgr.registry.redis.data == db0
    requires mgr.registry.Ready() ==>
      db1 == RegisterEffect(db0, mgr.registry.podId.value, tunnelId, mgr.registry.registryTtl, mgr.registry.redis.clock).0
    requires s0 == Session(now, Running, ws.sends, ws.closed, mgr.pendingRequests.Keys, map[])
    requires mgr.pendingRequests == orig && Correlated(orig, orig, init, map[])
    modifies mgr, mgr.registry.redis, ws, FuturesOf(orig)
    ensures mgr.Valid()
    ensures ws.accepted == old(ws.accepted)
    ensures mgr.registry.redis != null ==> mgr.registry.redis.clock == old(mgr.registry.redis.clock)
    ensures Correlated(mgr.pendingRequests, orig, init, answers)
    ensures r.Served? <==>
      mgr.registry.Ready() &&
      RegisterEffect(db0, mgr.registry.podId.value, tunnelId, mgr.registry.registryTtl, mgr.registry.redis.clock).1
    ensures !mgr.registry.Ready() ==> r == Raised("TunnelRegistry not connected") && unchanged(ws)
    ensures mgr.registry.Ready() && !r.Served? ==>
      r == Refused(CloseFrame(PolicyViolation, AlreadyRegisteredMessage(tunnelId))) &&
      ws.closed == Some(r.close) && ws.sends == old(ws.sends)
    ensures !r.Served? ==>
      && mgr.activeTunnels == old(mgr.activeTunnels) && mgr.pendingRequests == orig
      && (mgr.registry.redis != null ==> mgr.registry.redis.data == db0)
    ensures r.Served? ==>
      && tunnel != null && tunnel.websocket == ws
      && mgr.activeTunnels == old(mgr.activeTunnels) - {tunnelId}
      && SessionDone(mgr, tunnel, tunnelId, db1, s0, events, cfg, r.end, answers)
  {
    answers := map[];
    tunnel := null;
    var reg := mgr.RegisterTunnel(tunnelId, ws, now);
    match reg {
    case RegistryUnavailable(message) =>
      return Raised(message), tunnel, answers;
    case AlreadyRegistered(message) =>
      ws.Close(PolicyViolation, message);
      return Refused(CloseFrame(PolicyViolation, message)), tunnel, answers;
    case Registered(t) =>
      tunnel := t;
      var end;
      assert mgr.activeTunnels - {tunnelId} == old(mgr.activeTunnels) - {tunnelId};
      end, answers := RunSession(mgr, tunnelId, t, events, cfg, db1, s0, orig, init);
      r := Served(end);
    }
  }

  /** The admission half of `websocket_tunnel`: the token check, the Control Plane
      validation (whose HTTP outcome is `reply`) and the admission checks. None
      means admitted, with the socket accepted; a refusal accepts the socket first
      so that its close code reaches the agent. */
  method Screen(cp: ControlPlaneClient, ws: WebSocket, tunnelId: string,
                tokenHeader: Option<string>, now: int, reply: HttpReply<Validation>)
    returns (refusal: Option<ConnectionEnd>)
    modifies cp, ws
    ensures ws.sends == old(ws.sends)
    ensures cp.mockMode == old(cp.mockMode) && cp.client == old(cp.client)
    ensures cp.slugLookups == old(cp.slugLookups)
    ensures !HasToken(tokenHeader) ==>
      && refusal == Some(Refused(CloseFrame(PolicyViolation, "Missing X-Tunnel-Token header")))
      && cp.validations == old(cp.validations)
    ensures HasToken(tokenHeader) ==> cp.validations == old(cp.validations) + [(tunnelId, tokenHeader.value)]
    ensures var v := ValidateOutcome(old(cp.mockMode), old(cp.client), tunnelId, now, reply);
      HasToken(tokenHeader) && v.RuntimeError? ==> refusal == Some(Raised(v.message)) && unchanged(ws)
    ensures var v := ValidateOutcome(old(cp.mockMode), old(cp.client), tunnelId, now, reply);
      HasToken(tokenHeader) && v.Returned? && JudgeValidation(v.value).Refuse? ==>
        refusal == Some(Refused(CloseFrame(JudgeValidation(v.value).code, JudgeValidation(v.value).reason)))
    ensures refusal.Some? ==> !refusal.value.Served?
    ensures refusal.Some? && refusal.value.Refused? ==> ws.accepted && ws.closed == Some(refusal.value.close)
    ensures var v := ValidateOutcome(old(cp.mockMode), old(cp.client), tunnelId, now, reply);
      refusal.None? <==> HasToken(tokenHeader) && v.Returned? && JudgeValidation(v.value) == Admit
    ensures refusal.None? ==> ws.accepted && ws.closed == old(ws.closed)
  {
    if !HasToken(tokenHeader) {
      ws.Accept();
      ws.Close(PolicyViolation, "Missing X-Tunnel-Token header");
      return Some(Refused(CloseFrame(PolicyViolation, "Missing X-Tunnel-Token header")));
    }
    var validation := cp.ValidateTunnel(tunnelId, tokenHeader.value, now, reply);
    if validation.RuntimeError? {
      return Some(Raised(validation.message));
    }
    var admission := JudgeValidation(validation.value);
    ws.Accept();
    if admission.Refuse? {
      ws.Close(admission.code, admission.reason);
      return Some(Refused(CloseFrame(admission.code, admission.reason)));
    }
    refusal := None;
  }

  /** `websocket_tunnel`: `Screen`, then `Serve` for an admitted agent. */
  method WebsocketTunnel(mgr: TunnelManager, cp: ControlPlaneClient, ws: WebSocket, tunnelId: string,
                         tokenHeader: Option<string>, now: int, reply: HttpReply<Validation>,
                         events: seq<Event>, cfg: Settings)
    returns (r: ConnectionEnd, ghost tunnel: Tunnel?, ghost answers: map<string, Message>)
    requires mgr.Valid()
    modifies mgr, mgr.registry.redis, cp, ws, FuturesOf(mgr.pendingRequests)
    ensures mgr.Valid()
    ensures cp.mockMode == old(cp.mockMode) && cp.client == old(cp.client)
    ensures cp.slugLookups == old(cp.slugLookups)
    ensures mgr.registry.redis != null ==> mgr.registry.redis.clock == old(mgr.registry.redis.clock)
    ensures !HasToken(tokenHeader) ==>
      && r == Refused(CloseFrame(PolicyViolation, "Missing X-Tunnel-Token header"))
      && cp.validations == old(cp.validations)
    ensures HasToken(tokenHeader) ==> cp.validations == old(cp.validations) + [(tunnelId, tokenHeader.value)]
    ensures var v := ValidateOutcome(old(cp.mockMode), old(cp.client), tunnelId, now, reply);
      HasToken(tokenHeader) && v.RuntimeError? ==> r == Raised(v.message) && unchanged(ws)
    ensures var v := ValidateOutcome(old(cp.mockMode), old(cp.client), tunnelId, now, reply);
      HasToken(tokenHeader) && v.Returned? && JudgeValidation(v.value).Refuse? ==>
        r == Refused(CloseFrame(JudgeValidation(v.value).code, JudgeValidation(v.value).reason))
    ensures r.Refused? ==> ws.accepted && ws.closed == Some(r.close)
    ensures !r.Served? ==> ws.sends == old(ws.sends)
    ensures var v := ValidateOutcome(old(cp.mockMode), old(cp.client), tunnelId, now, reply);
      r.Served? <==>
        (&& HasToken(tokenHeader) && v.Returned? && JudgeValidation(v.value) == Admit
         && mgr.registry.Ready()
         && RegisterEffect(old(mgr.registry.redis.data), mgr.registry.podId.value, tunnelId,
                           mgr.registry.registryTtl, mgr.registry.redis.clock).1)
    ensures !r.Served? ==> mgr.activeTunnels == old(mgr.activeTunnels) && mgr.pendingRequests == old(mgr.pendingRequests)
    ensures !r.Served? && mgr.registry.redis != null ==> mgr.registry.redis.data == old(mgr.registry.redis.data)
    ensures r.Served? ==>
      && ws.accepted && tunnel != null && tunnel.websocket == ws
      && mgr.activeTunnels == old(mgr.activeTunnels) - {tunnelId}
      && SessionDone(mgr, tunnel, tunnelId,
                     RegisterEffect(old(mgr.registry.redis.data), mgr.registry.podId.value, tunnelId,
                                    mgr.registry.registryTtl, mgr.registry.redis.clock).0,
                     Session(now, Running, old(ws.sends), old(ws.closed), old(mgr.pendingRequests).Keys, map[]),
                     events, cfg, r.end, answers)
    ensures Correlated(mgr.pendingRequests, old(mgr.pendingRequests), old(FutureStates(mgr.pendingRequests)), answers)
  {
    answers := map[];
    tunnel := null;
    ghost var db0 := if mgr.registry.redis != null then mgr.registry.redis.data else EmptyStore;
    ghost var db1 := if mgr.registry.Ready()
      then RegisterEffect(db0, mgr.registry.podId.value, tunnelId, mgr.registry.registryTtl, mgr.registry.redis.clock).0
      else db0;
    ghost var s0 := Session(now, Running, ws.sends, ws.closed, mgr.pendingRequests.Keys, map[]);
    ghost var orig := mgr.pendingRequests;
    ghost var init := FutureStates(orig);
    assert orig == old(mgr.pendingRequests) && init == old(FutureStates(mgr.pendingRequests));
    CorrelatedAtStart(mgr);
    var refusal := Screen(cp, ws, tunnelId, tokenHeader, now, reply);
    if refusal.Some? {
      return refusal.value, tunnel, answers;
    }
    r, tunnel, answers := Serve(mgr, tunnelId, ws, now, events, cfg, db0, db1, s0, orig, init);
    if r.Served? {
      assert db1 == RegisterEffect(old(mgr.registry.redis.data), mgr.registry.podId.value, tunnelId,
                                   mgr.registry.registryTtl, mgr.registry.redis.clock).0;
    }
  }
}
