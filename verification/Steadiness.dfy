/** What no task changes: a task loses native sessions only while the executor is down, leaves
    the number of slots of every session alone but for the authentication result, and enters
    into the books only what the closed and the open event of a data channel enter. */
module Steadiness {
  import opened Wrappers
  import opened Model
  import Frames
  import opened Lifecycle
  import opened Dwindling
  import opened Handshaking
  import opened Connecting

  // ----- Opening -----------------------------------------------------------------------

  lemma AcquireSessionSteady(st: State, k: nat)
    requires k in st.sockets
    ensures Steady(st, AcquireSession(st, k), {st.next})
  {
  }

  lemma CreateSessionSteady(st: State, k: nat, o: Outcome)
    ensures Steady(st, CreateSession(st, k, o), {st.next})
  {
    if k in st.sockets && o.acquire && o.timer {
      var s, st1 := st.next, AcquireSession(st, k);
      AcquireSessionSteady(st, k);
      if o.push {
        NodeSteady(st1, k, s);
      } else {
        SessionCloseSteady(st1, s, {s});
      }
      SteadyOn(st, st1, CreateSession(st, k, o), {s});
    }
  }

  lemma NodeSteady(st: State, k: nat, s: nat)
    requires k in st.sockets && s in st.sessions
    ensures
      var e, socket := st.next, st.sockets[k];
      Steady(st, SetSession(SetSocket(st.(next := e + 1), k, socket.(sessions := socket.sessions + [Node(e, s)])),
                            s, st.sessions[s].(entry := Some(e))), {s})
  {
  }

  lemma AddChannelSteady(st: State, s: nat, index: nat)
    requires s in st.sessions
    ensures Steady(st, AddChannel(st, s, index), {s})
  {
  }

  lemma {:induction false} AddChannelsSteady(st: State, s: nat, count: nat)
    requires s in st.sessions
    ensures Steady(st, AddChannels(st, s, count), {s})
  {
    if count > 0 {
      var st1 := AddChannels(st, s, count - 1);
      AddChannelsSteady(st, s, count - 1);
      AddChannelSteady(st1, s, count - 1);
      SteadyOn(st, st1, AddChannels(st, s, count), {s});
    }
  }

  lemma AddSystemChannelSteady(st: State, s: nat)
    requires s in st.sessions
    ensures Steady(st, AddSystemChannel(st, s), {s})
  {
  }

  lemma CreateChannelsSteady(st: State, s: nat, o: Outcome)
    requires s in st.sessions
    ensures Steady(st, CreateChannels(st, s, o).st, {s})
  {
    var x := st.sessions[s];
    if x.socket in st.sockets && o.resize {
      var n := st.sockets[x.socket].modes;
      var st1 := SetSession(st, s, x.(channels := seq(n, _ => None)));
      ObjectsSteady(st, st.sockets, st1.sessions, st.channels, st.timers, st.fault, {s});
      var count := if o.acquired < n then o.acquired else n;
      var st2 := AddChannels(st1, s, count);
      AddChannelsSteady(st1, s, count);
      SteadyOn(st, st1, st2, {s});
      if o.acquired > n {
        AddSystemChannelSteady(st2, s);
        SteadyOn(st, st2, AddSystemChannel(st2, s), {s});
      }
    }
  }

  lemma ScheduleTimeoutSteady(st: State, s: nat)
    requires s in st.sessions
    ensures Steady(st, ScheduleTimeout(st, s), {s})
  {
  }

  lemma AcceptedSteady(st: State, s: nat, token: int, o: Outcome)
    requires s in st.sessions
    ensures
      var r := CreateChannels(st, s, o);
      Steady(st, if !r.ok then SessionClose(r.st, s)
                 else if token <= 0 then r.st
                 else if !o.timer then SessionClose(r.st, s)
                 else ScheduleTimeout(r.st, s), {s})
  {
    var st1 := CreateChannels(st, s, o).st;
    CreateChannelsSteady(st, s, o);
    SessionCloseSteady(st1, s, {s});
    SteadyOn(st, st1, SessionClose(st1, s), {s});
    ScheduleTimeoutSteady(st1, s);
    SteadyOn(st, st1, ScheduleTimeout(st1, s), {s});
  }

  lemma OnAuthResultSteady(st: State, s: nat, token: Option<int>, o: Outcome)
    requires s in st.sessions
    ensures Steady(st, OnAuthResult(st, s, token, o), {s})
  {
    var st1 := UnscheduleTimeout(st, s);
    UnscheduleTimeoutDwindles(st, s);
    DwindlesSteady(st, st1, {s});
    if token.None? { SessionCloseSteady(st1, s, {s}); } else { AcceptedSteady(st1, s, token.value, o); }
    SteadyOn(st, st1, OnAuthResult(st, s, token, o), {s});
  }

  lemma WsAuthResultSteady(st: State, s: nat, token: Option<int>, o: Outcome)
    requires s in st.sessions
    ensures Steady(st, WsAuthResult(st, s, token, o), {s})
  {
    var st1 := SetSession(st, s, WithResult(st.sessions[s], token));
    ObjectsSteady(st, st.sockets, st1.sessions, st.channels, st.timers, st.fault, {s});
    OnAuthResultSteady(st1, s, token, o);
    SteadyOn(st, st1, WsAuthResult(st, s, token, o), {s});
  }

  lemma AskSteady(st: State, s: nat, y: Session)
    requires s in st.sessions && |y.channels| == |st.sessions[s].channels|
    requires y.authResults == st.sessions[s].authResults
    ensures Steady(st, Ask(st, s, y), {})
  {
  }

  lemma PluginOpenSteady(st: State, s: nat)
    requires s in st.sessions
    ensures Steady(st, PluginOpen(st, s), {})
  {
    var x := st.sessions[s];
    if x.native.Some? {
      ObjectsSteady(st, st.sockets, st.sessions[s := x.(openings := x.openings + 1)], st.channels, st.timers, true, {});
    } else {
      PluginOpenAsks(st, s);
      AskSteady(st, s, x);
    }
  }

  lemma OnReadySteady(st: State, s: nat)
    requires s in st.sessions
    ensures Steady(st, OnReady(st, s), {})
  {
    var st1 := UnscheduleTimeout(st, s);
    UnscheduleTimeoutDwindles(st, s);
    DwindlesSteady(st, st1, {});
    PluginOpenSteady(st1, s);
    SteadyOn(st, st1, PluginOpen(st1, s), {});
  }

  lemma RecvReadySteady(st: State, s: nat)
    requires s in st.sessions
    ensures Steady(st, RecvReady(st, s), {})
  {
    var x := st.sessions[s];
    var st1 := SetSession(st, s, x.(readyReceived := true));
    ObjectsSteady(st, st.sockets, st.sessions, st.channels, st.timers, st.fault, {});
    ObjectsSteady(st, st.sockets, st1.sessions, st.channels, st.timers, st.fault, {});
    if !x.readyReceived && x.allOpened {
      OnReadySteady(st1, s);
      SteadyOn(st, st1, OnReady(st1, s), {});
    }
  }

  /** The books once the channel c of the session s has opened. */
  function LedgerOpened(st: State, s: nat, o: Outcome): Ledger {
    if s in st.sessions && st.sessions[s].openCount == |st.sessions[s].channels|
    then PingLedger(st.ledger, s, st.sessions[s].active, st.next, o)
    else st.ledger
  }

  lemma OpenedSteady(st: State, s: nat, c: nat, o: Outcome)
    ensures Steady(st.(ledger := LedgerOpened(st, s, o)), OnChannelOpened(st, s, c, o), {})
  {
    if s in st.sessions {
      var x := st.sessions[s];
      if x.openCount == |x.channels| {
        AllOpenedIs(st, s, c, o);
        LastOpenedSteady(st, s, SeesOpen(x, c).(allOpened := true, ping := PingOf(st, o)), o);
      } else {
        ObjectsSteady(st, st.sockets, st.sessions[s := SeesOpen(x, c)], st.channels, st.timers, st.fault, {});
      }
    }
  }

  lemma LastOpenedSteady(st: State, s: nat, y: Session, o: Outcome)
    requires s in st.sessions && st.sessions[s].openCount == |st.sessions[s].channels|
    requires |y.channels| == |st.sessions[s].channels| && y.authResults == st.sessions[s].authResults
    ensures
      var st0, st' := st.(ledger := LedgerOpened(st, s, o)), SetSession(Pinged(st, s, o), s, y);
      Steady(st0, st', {}) && Steady(st0, OnReady(st', s), {})
  {
    var st0, st' := st.(ledger := LedgerOpened(st, s, o)), SetSession(Pinged(st, s, o), s, y);
    assert Steady(st0, st', {});
    OnReadySteady(st', s);
    SteadyOn(st0, st', OnReady(st', s), {});
  }

  // ----- Events ------------------------------------------------------------------------

  /** The session whose number of slots an event may change. */
  function NewSlots(st: State, source: Rtc, what: RtcEvent): set<nat> {
    if source.Wss? && what.Client? then {st.next}
    else if source.Ws? && what.Message? && source.s in st.sessions && st.sessions[source.s].wsActive
            && Frames.Dispatch(st.sessions[source.s].authenticated, what.raw).Auth?
    then {source.s}
    else {}
  }

  /** The books once the event was handled. */
  function LedgerAfter(st: State, source: Rtc, what: RtcEvent, o: Outcome): Ledger {
    if source.Dc? && source.c in st.channels && what.Open? then
      LedgerOpened(st, st.channels[source.c].session, o)
    else if source.Dc? && source.c in st.channels && what.Closed? then
      Straying(st.ledger, source.c, st.channels[source.c])
    else st.ledger
  }

  lemma WssSteady(st: State, k: nat, what: RtcEvent, o: Outcome)
    ensures Steady(st, WssEvent(st, k, what, o), NewSlots(st, Wss(k), what))
  {
    match what
    case Client =>
      CreateSessionSteady(st, k, o);
      ObjectsSteady(st, st.sockets, st.sessions, st.channels, st.timers, true, {st.next});
      ObjectsSteady(st, st.sockets, st.sessions, st.channels, st.timers, st.fault, {st.next});
    case Closed =>
      UnrefSocketDwindles(st, k);
      DwindlesSteady(st, UnrefSocket(st, k), {});
    case _ =>
  }

  lemma MessageSteady(st: State, s: nat, raw: seq<char>, o: Outcome)
    requires s in st.sessions
    ensures
      Steady(st, ProcessMessage(st, s, raw, o),
             if Frames.Dispatch(st.sessions[s].authenticated, raw).Auth? then {s} else {})
  {
    match Frames.Dispatch(st.sessions[s].authenticated, raw)
    case Auth(_) => WsAuthResultSteady(st, s, o.token, o);
    case Ready => RecvReadySteady(st, s);
    case Overread => ObjectsSteady(st, st.sockets, st.sessions, st.channels, st.timers, true, {});
    case _ =>
  }

  /** A session is closed and a reference to it dropped. */
  lemma ClosedSteady(st: State, s: nat)
    ensures Steady(st, UnrefSession(SessionClose(st, s), s), {})
  {
    var st1 := SessionClose(st, s);
    SessionCloseSteady(st, s, {});
    UnrefSessionDwindles(st1, s);
    DwindlesSteady(st1, UnrefSession(st1, s), {});
    SteadyOn(st, st1, UnrefSession(st1, s), {});
  }

  lemma WsSteady(st: State, s: nat, what: RtcEvent, o: Outcome)
    ensures Steady(st, WsEvent(st, s, what, o), NewSlots(st, Ws(s), what))
  {
    ObjectsSteady(st, st.sockets, st.sessions, st.channels, st.timers, st.fault, {});
    if s in st.sessions {
      match what
      case Message(raw) => if st.sessions[s].wsActive { MessageSteady(st, s, raw, o); }
      case Closed => ClosedSteady(st, s);
      case _ =>
    }
  }

  lemma ArrivedSteady(st: State, s: nat, index: nat)
    requires s in st.sessions
    ensures Steady(st, DataChannelArrived(st, s, index), {})
  {
    var slots := st.sessions[s].channels;
    ObjectsSteady(st, st.sockets, st.sessions, st.channels, st.timers, st.fault, {});
    ObjectsSteady(st, st.sockets, st.sessions, st.channels, st.timers, true, {});
    if index < |slots| && slots[index].Some? && slots[index].value in st.channels {
      var c := slots[index].value;
      var channels' := st.channels[c := st.channels[c].(incoming := true)];
      ObjectsSteady(st, st.sockets, st.sessions, channels', st.timers, st.fault, {});
    }
  }

  lemma PcSteady(st: State, s: nat, what: RtcEvent)
    ensures Steady(st, PcEvent(st, s, what), {})
  {
    ObjectsSteady(st, st.sockets, st.sessions, st.channels, st.timers, st.fault, {});
    ObjectsSteady(st, st.sockets, st.sessions, st.channels, st.timers, true, {});
    match what
    case DataChannel(valid, index) =>
      if s in st.sessions {
        if valid { ArrivedSteady(st, s, index); } else { SessionCloseSteady(st, s, {}); }
      }
    case Closed => ClosedSteady(st, s);
    case _ =>
  }

  lemma RemoveChannelSteady(st: State, s: nat, index: nat)
    ensures Steady(st, RemoveChannel(st, s, index), {})
  {
    if s in st.sessions {
      var x := st.sessions[s];
      ObjectsSteady(st, st.sockets, st.sessions[s := x.(channels := SetSlot(x.channels, index, None))], st.channels,
                    st.timers, st.fault, {});
    } else {
      ObjectsSteady(st, st.sockets, st.sessions, st.channels, st.timers, true, {});
    }
  }

  lemma DcMessageSteady(st: State, c: nat)
    requires c in st.channels
    ensures Steady(st, DcMessage(st, c), {})
  {
    ObjectsSteady(st, st.sockets, st.sessions, st.channels, st.timers, st.fault, {});
    ObjectsSteady(st, st.sockets, st.sessions, st.channels, st.timers, true, {});
  }

  lemma DcClosedSteady(st: State, c: nat)
    requires c in st.channels
    ensures
      var st0, s, index := st.(ledger := Straying(st.ledger, c, st.channels[c])), st.channels[c].session,
                           st.channels[c].index;
      Steady(st0, UnrefChannel(RemoveChannel(st0, s, index), c), {})
  {
    var st0, s := st.(ledger := Straying(st.ledger, c, st.channels[c])), st.channels[c].session;
    var st1 := RemoveChannel(st0, s, st.channels[c].index);
    RemoveChannelSteady(st0, s, st.channels[c].index);
    UnrefChannelDwindles(st1, c);
    DwindlesSteady(st1, UnrefChannel(st1, c), {});
    SteadyOn(st0, st1, UnrefChannel(st1, c), {});
  }

  /** The events of a channel that enter nothing into the books. */
  lemma DcPlainSteady(st: State, c: nat, what: RtcEvent, o: Outcome)
    requires c in st.channels && !what.Open? && !what.Closed?
    ensures Steady(st, DcEvent(st, c, what, o), {})
  {
    match what
    case Error =>
      ChannelCloseDwindles(st, c);
      DwindlesSteady(st, ChannelClose(st, c), {});
    case Message(_) => DcMessageSteady(st, c);
    case _ => ObjectsSteady(st, st.sockets, st.sessions, st.channels, st.timers, st.fault, {});
  }

  lemma DcSteady(st: State, c: nat, what: RtcEvent, o: Outcome)
    ensures Steady(st.(ledger := LedgerAfter(st, Dc(c), what, o)), DcEvent(st, c, what, o), {})
  {
    if c in st.channels {
      match what
      case Open => OpenedSteady(st, st.channels[c].session, c, o);
      case Closed => DcClosedSteady(st, c);
      case _ => DcPlainSteady(st, c, what, o);
    } else {
      ObjectsSteady(st, st.sockets, st.sessions, st.channels, st.timers, st.fault, {});
    }
  }

  /** Handling an event enters into the books exactly this, and leaves the rest steady. */
  lemma EventSteady(st: State, source: Rtc, what: RtcEvent, o: Outcome)
    ensures Steady(st.(ledger := LedgerAfter(st, source, what, o)), RtcTask(st, source, what, o),
                   NewSlots(st, source, what))
  {
    var st1 := if what.Closed? then st.(rtc := st.rtc - {source}) else st;
    match source
    case Wss(k) => WssSteady(st1, k, what, o);
    case Ws(s) => WsSteady(st1, s, what, o);
    case Pc(s) => PcSteady(st1, s, what);
    case Dc(c) => DcSteady(st1, c, what, o);
  }

  // ----- Tasks and timers --------------------------------------------------------------

  lemma OnCreatedSteady(st: State, s: nat, created: Option<nat>)
    ensures Steady(st, OnCreated(st, s, created), {})
  {
    SessionCloseSteady(st, s, {});
    if s in st.sessions && created.Some? {
      var x := st.sessions[s].(native := created);
      var st1 := SetSession(st.(owners := st.owners[created.value := s]), s, x);
      assert Steady(st, st1, {});
      EnableSlotsOnly(st1, x.channels);
      var st2 := EnableSlots(st1, x.channels);
      ObjectsSteady(st1, st.sockets, st1.sessions, st2.channels, st.timers, st2.fault, {});
      SteadyOn(st, st1, st2, {});
      EnableSteady(st2, x.system);
      SteadyOn(st, st2, EnableReceiving(st2, x.system), {});
    }
  }

  lemma EnableSteady(st: State, slot: Option<nat>)
    ensures Steady(st, EnableReceiving(st, slot), {})
  {
    var st' := EnableReceiving(st, slot);
    ObjectsSteady(st, st.sockets, st.sessions, st'.channels, st.timers, st'.fault, {});
  }

  lemma CreatedSteady(st: State, s: nat, created: Option<nat>)
    ensures Steady(st, UnrefSession(OnCreated(st, s, created), s), {})
  {
    var st1 := OnCreated(st, s, created);
    OnCreatedSteady(st, s, created);
    UnrefSessionDwindles(st1, s);
    DwindlesSteady(st1, UnrefSession(st1, s), {});
    SteadyOn(st, st1, UnrefSession(st1, s), {});
  }

  lemma AcquireSocketSteady(st: State, native: nat, modes: nat, o: Outcome)
    ensures Steady(st, AcquireSocket(st, native, modes, o), {})
  {
  }

  /** The tasks that are no events. */
  lemma OtherSteady(st: State, t: Task, o: Outcome)
    requires !t.Event?
    ensures Steady(st, RunTask(st, t, o), {})
  {
    ObjectsSteady(st, st.sockets, st.sessions, st.channels, st.timers, st.fault, {});
    ObjectsSteady(st, st.sockets, st.sessions, st.channels, st.timers, true, {});
    match t
    case Listening(native, modes) => AcquireSocketSteady(st, native, modes, o);
    case Stopped(native) => if native in st.socketMap { SocketCloseSteady(st, st.socketMap[native], {}); }
    case Disconnect(native) => if Finds(st, native) { SessionCloseSteady(st, st.owners[native], {}); }
    case Deliver(_, _) =>
    case Created(s, created) => CreatedSteady(st, s, created);
    case Received(c) =>
      UnrefChannelDwindles(st, c);
      DwindlesSteady(st, UnrefChannel(st, c), {});
  }

  lemma FireSteady(st: State, t: nat)
    requires t in st.timers
    ensures Steady(st, Fire(st, t), {})
  {
    var s := st.timers[t].s;
    ObjectsSteady(st, st.sockets, st.sessions, st.channels, st.timers, st.fault, {});
    ObjectsSteady(st, st.sockets, st.sessions, st.channels, st.timers, true, {});
    if st.timers[t].Timeout? && s in st.sessions {
      var st1 := UnscheduleTimeout(st, s);
      UnscheduleTimeoutDwindles(st, s);
      DwindlesSteady(st, st1, {});
      SessionCloseSteady(st1, s, {});
      SteadyOn(st, st1, SessionClose(st1, s), {});
    }
  }

  // ----- Steps -------------------------------------------------------------------------

  /** The books after a step. */
  function LedgerNext(st: State, step: Step): Ledger {
    if step.LoopStep? && st.tasks != [] && st.tasks[0].Event?
    then LedgerAfter(st, st.tasks[0].source, st.tasks[0].what, step.o)
    else st.ledger
  }

  function SlotsNext(st: State, step: Step): set<nat> {
    if step.LoopStep? && st.tasks != [] && st.tasks[0].Event?
    then NewSlots(st, st.tasks[0].source, st.tasks[0].what)
    else {}
  }

  /** The state with its first task taken and the books of the step made. */
  function Underway(st: State, step: Step): State
    requires step.LoopStep? ==> st.tasks != []
  {
    st.(ledger := LedgerNext(st, step), tasks := if step.LoopStep? then st.tasks[1..] else st.tasks)
  }

  /** A step of the event loop or of a timer. */
  lemma RunsSteady(st: State, step: Step)
    requires Enabled(st, step) && (step.LoopStep? || step.TimerStep?)
    ensures Steady(Underway(st, step), Next(st, step), SlotsNext(st, step))
  {
    if step.TimerStep? {
      FireSteady(st, step.t);
    } else {
      var t, st1 := st.tasks[0], st.(tasks := st.tasks[1..]);
      if t.Event? { EventSteady(st1, t.source, t.what, step.o); } else { OtherSteady(st1, t, step.o); }
    }
  }

  /** The strays, the late pings, the slots and the results of a step. */
  lemma NextSteady(st: State, step: Step)
    requires Enabled(st, step)
    ensures Next(st, step).ledger.strays == LedgerNext(st, step).strays
    ensures Next(st, step).ledger.late == LedgerNext(st, step).late
    ensures SlotsFixed(st.sessions, Next(st, step).sessions, SlotsNext(st, step))
  {
    match step
    case LoopStep(_) => RunsSteady(st, step);
    case TimerStep(_) => RunsSteady(st, step);
    case ExecStep(o) => ExecuteKeepsObjects(st, o);
    case _ =>
  }

  lemma ExecuteKeepsObjects(st: State, o: Outcome)
    requires st.exec != []
    ensures SameObjects(st, Execute(st, o))
  {
    CommandKeepsObjects(st.(exec := st.exec[1..]), st.exec[0], o);
  }

  /** The objects, their books, and what the executor lost. */
  predicate SameObjects(st: State, st': State) {
    st'.ledger == st.ledger && st'.sessions == st.sessions && st'.listening == st.listening && st'.lost == st.lost
  }

  lemma CommandKeepsObjects(st: State, command: Command, o: Outcome)
    ensures SameObjects(st, RunCommand(st, command, o))
  {
    assert SameObjects(st, Fail(st));
    match command
    case Create(s) => CreateKeepsObjects(st, s, o);
    case Receive(c, target) => ReceiveKeepsObjects(st, c, target, o);
    case Destroy(n) => DestroyKeepsObjects(st, n, o);
  }

  lemma CreateKeepsObjects(st: State, s: nat, o: Outcome)
    ensures SameObjects(st, RunCommand(st, Command.Create(s), o))
  {
  }

  lemma ReceiveKeepsObjects(st: State, c: nat, target: Option<nat>, o: Outcome)
    ensures SameObjects(st, RunCommand(st, Receive(c, target), o))
  {
    var tasks' := st.tasks + [Received(c)];
    assert SameObjects(st, st.(tasks := tasks'));
    assert SameObjects(st, Fail(st));
  }

  lemma DestroyKeepsObjects(st: State, n: nat, o: Outcome)
    ensures SameObjects(st, RunCommand(st, Destroy(n), o))
  {
    DestroyedKeepsObjects(st, st.destroyed + multiset{n});
  }

  lemma DestroyedKeepsObjects(st: State, destroyed': multiset<nat>)
    ensures SameObjects(st, st.(destroyed := destroyed'))
  {
  }
}
