/** The steps of the plugin as functions from state to state, one function for each function
    of the program. Following a NULL or stale pointer sets the fault flag. */
module Lifecycle {
  import opened Wrappers
  import opened Model
  import Frames

  // ----- References ------------------------------------------------------------------

  function ReleaseSocket(st: State, k: nat): State
    requires k in st.sockets
  {
    st.(sockets := st.sockets - {k}, socketMap := st.socketMap - {st.sockets[k].native},
        ledger := Released(st.ledger, SocketRef(k)))
  }

  function UnrefSocket(st: State, k: nat): State {
    if k !in st.sockets then Fail(st)
    else if st.sockets[k].ref > 1 then SetSocket(st, k, st.sockets[k].(ref := st.sockets[k].ref - 1))
    else ReleaseSocket(st, k)
  }

  /** A refused destroy is not retried. */
  function DestroyNative(st: State, s: nat): State
    requires s in st.sessions
  {
    var x := st.sessions[s];
    if x.native.None? then st
    else
      var st1 := if ExecutorUp(st) then Submit(st, Destroy(x.native.value))
                 else st.(lost := st.lost + multiset{x.native.value});
      SetSession(st1, s, x.(native := None))
  }

  function UnscheduleTimeout(st: State, s: nat): State
    requires s in st.sessions
  {
    var x := st.sessions[s];
    if x.timeout.None? then st
    else SetSession(st.(timers := st.timers - {x.timeout.value}), s, x.(timeout := None))
  }

  /** Cleanup of a session: its native session, its timeout, then its socket. */
  function ReleaseSession(st: State, s: nat): State
    requires s in st.sessions
  {
    var st1 := UnscheduleTimeout(DestroyNative(st, s), s);
    UnrefSocket(st1.(sessions := st1.sessions - {s}, ledger := Released(st1.ledger, SessionRef(s))),
                st1.sessions[s].socket)
  }

  function UnrefSession(st: State, s: nat): State {
    if s !in st.sessions then Fail(st)
    else if st.sessions[s].ref > 1 then SetSession(st, s, st.sessions[s].(ref := st.sessions[s].ref - 1))
    else ReleaseSession(st, s)
  }

  function ReleaseChannel(st: State, c: nat): State
    requires c in st.channels
  {
    UnrefSession(st.(channels := st.channels - {c}, ledger := Released(st.ledger, ChannelRef(c))),
                 st.channels[c].session)
  }

  function UnrefChannel(st: State, c: nat): State {
    if c !in st.channels then Fail(st)
    else if st.channels[c].ref > 1 then SetChannel(st, c, st.channels[c].(ref := st.channels[c].ref - 1))
    else ReleaseChannel(st, c)
  }

  // ----- Closing ---------------------------------------------------------------------

  function ChannelClose(st: State, c: nat): State {
    if c !in st.channels then Fail(st)
    else if !st.channels[c].active then st
    else UnrefChannel(SetChannel(st, c, st.channels[c].(active := false, dcActive := false)), c)
  }

  function CloseSlot(st: State, slot: Option<nat>): State {
    if slot.None? then st else ChannelClose(st, slot.value)
  }

  function CloseSlots(st: State, slots: seq<Option<nat>>): State {
    if slots == [] then st
    else CloseSlot(CloseSlots(st, slots[..|slots| - 1]), slots[|slots| - 1])
  }

  function StopPing(st: State, s: nat): State
    requires s in st.sessions
  {
    var x := st.sessions[s];
    if x.ping.None? then st
    else SetSession(st.(timers := st.timers - {x.ping.value}), s, x.(ping := None))
  }

  function RemoveNode(nodes: seq<Node>, node: Node): seq<Node> {
    if nodes == [] then []
    else if nodes[0] == node then nodes[1..]
    else [nodes[0]] + RemoveNode(nodes[1..], node)
  }

  function RemoveSession(st: State, s: nat): State
    requires s in st.sessions
  {
    var x := st.sessions[s];
    if x.entry.None? then st
    else if x.socket !in st.sockets then Fail(st)
    else
      var socket := st.sockets[x.socket];
      SetSession(
        SetSocket(st, x.socket, socket.(sessions := RemoveNode(socket.sessions, Node(x.entry.value, s)))),
        s, x.(entry := None))
  }

  function Deactivate(st: State, s: nat): State
    requires s in st.sessions
  {
    StopPing(SetSession(st, s, st.sessions[s].(active := false)), s)
  }

  /** Closing the WS, the PC and the native session, and leaving the socket's list. */
  function CloseParts(st: State, s: nat): State {
    if s !in st.sessions then Fail(st)
    else
      var st1 := SetSession(st, s, st.sessions[s].(wsActive := false, pcActive := false));
      RemoveSession(DestroyNative(st1, s), s)
  }

  function SessionClose(st: State, s: nat): State {
    if s !in st.sessions then Fail(st)
    else if !st.sessions[s].active then st
    else
      var x := st.sessions[s];
      var st1 := CloseSlot(CloseSlots(Deactivate(st, s), x.channels), x.system);
      UnrefSession(CloseParts(st1, s), s)
  }

  /** One turn of the loop that closes the sessions of a socket. */
  function PopAndClose(st: State, k: nat, node: Node): State {
    if k !in st.sockets || node.session !in st.sessions || st.sockets[k].sessions == [] then Fail(st)
    else
      var st1 := SetSocket(st, k, st.sockets[k].(sessions := st.sockets[k].sessions[1..]));
      SessionClose(SetSession(st1, node.session, st1.sessions[node.session].(entry := None)), node.session)
  }

  function CloseNodes(st: State, k: nat, nodes: seq<Node>): State {
    if nodes == [] then st
    else PopAndClose(CloseNodes(st, k, nodes[..|nodes| - 1]), k, nodes[|nodes| - 1])
  }

  function SocketClose(st: State, k: nat): State {
    if k !in st.sockets then Fail(st)
    else if !st.sockets[k].active then st
    else
      var st1 := SetSocket(st, k, st.sockets[k].(active := false));
      var st2 := CloseNodes(st1, k, st.sockets[k].sessions);
      if k !in st2.sockets then Fail(st2)
      else UnrefSocket(SetSocket(st2, k, st2.sockets[k].(wssActive := false)), k)
  }

  // ----- Opening ---------------------------------------------------------------------

  function AcquireSocket(st: State, native: nat, modes: nat, o: Outcome): State {
    if !o.acquire then st
    else
      var k := st.next;
      st.(sockets := st.sockets[k := Socket(2, true, true, modes, [], native)],
          socketMap := st.socketMap[native := k],
          rtc := st.rtc[Wss(k) := true],
          ledger := Acquired(st.ledger, SocketRef(k)),
          next := k + 1)
  }

  /** A new session holds its own reference and those of its WS and its PC. */
  function NewSession(k: nat, timeout: nat): Session {
    Session(3, true, true, false, true, false, false, k, [], None, None, 0, None, Some(timeout), None, 0, 0, {}, {})
  }

  /** The new session has its authentication timeout running. */
  function AcquireSession(st: State, k: nat): State
    requires k in st.sockets
  {
    var s := st.next;
    var t := s + 1;
    st.(sockets := st.sockets[k := st.sockets[k].(ref := st.sockets[k].ref + 1)],
        sessions := st.sessions[s := NewSession(k, t)],
        timers := st.timers[t := Timeout(s)],
        rtc := st.rtc[Ws(s) := true][Pc(s) := true],
        ledger := Acquired(st.ledger, SessionRef(s)),
        next := s + 2)
  }

  function CreateSession(st: State, k: nat, o: Outcome): State {
    if k !in st.sockets then Fail(st)
    else if !o.acquire || !o.timer then st
    else
      var s := st.next;
      var st1 := AcquireSession(st, k);
      if !o.push then SessionClose(st1, s)
      else
        var e := st1.next;
        var socket := st1.sockets[k];
        SetSession(
          SetSocket(st1.(next := e + 1), k, socket.(sessions := socket.sessions + [Node(e, s)])),
          s, st1.sessions[s].(entry := Some(e)))
  }

  /** The new channel holds its own reference and that of its DC. */
  function AcquireChannel(st: State, s: nat, index: nat): State
    requires s in st.sessions
  {
    var c := st.next;
    var x := st.sessions[s];
    st.(channels := st.channels[c := Channel(2, true, true, false, index, s, false)],
        sessions := st.sessions[s := x.(ref := x.ref + 1, members := x.members + {c})],
        rtc := st.rtc[Dc(c) := true],
        ledger := Acquired(st.ledger, ChannelRef(c)),
        next := c + 1)
  }

  function SetSlot(slots: seq<Option<nat>>, index: nat, value: Option<nat>): seq<Option<nat>> {
    if index < |slots| then slots[index := value] else slots
  }

  function AddChannel(st: State, s: nat, index: nat): State
    requires s in st.sessions
  {
    var st1 := AcquireChannel(st, s, index);
    var x := st1.sessions[s];
    SetSession(st1, s, x.(channels := SetSlot(x.channels, index, Some(st.next))))
  }

  function AddSystemChannel(st: State, s: nat): State
    requires s in st.sessions
  {
    var st1 := AcquireChannel(st, s, SYSTEM_INDEX);
    SetSession(st1, s, st1.sessions[s].(system := Some(st.next)))
  }

  function AddChannels(st: State, s: nat, count: nat): (st': State)
    requires s in st.sessions
    ensures s in st'.sessions
  {
    if count == 0 then st
    else AddChannel(AddChannels(st, s, count - 1), s, count - 1)
  }

  datatype Creation = Creation(st: State, ok: bool)

  function CreateChannels(st: State, s: nat, o: Outcome): (r: Creation)
    requires s in st.sessions
    ensures s in r.st.sessions
  {
    var x := st.sessions[s];
    if x.socket !in st.sockets then Creation(Fail(st), false)
    else if !o.resize then Creation(st, false)
    else
      var n := st.sockets[x.socket].modes;
      var st1 := SetSession(st, s, x.(channels := seq(n, _ => None)));
      if o.acquired < n then Creation(AddChannels(st1, s, o.acquired), false)
      else if o.acquired == n then Creation(AddChannels(st1, s, n), false)
      else Creation(AddSystemChannel(AddChannels(st1, s, n), s), true)
  }

  function ScheduleTimeout(st: State, s: nat): State
    requires s in st.sessions
  {
    var t := st.next;
    SetSession(st.(timers := st.timers[t := Timeout(s)], next := t + 1), s, st.sessions[s].(timeout := Some(t)))
  }

  function OnAuthResult(st: State, s: nat, token: Option<int>, o: Outcome): State
    requires s in st.sessions
  {
    var st1 := UnscheduleTimeout(st, s);
    if token.None? then SessionClose(st1, s)
    else
      var r := CreateChannels(st1, s, o);
      if !r.ok then SessionClose(r.st, s)
      else if token.value <= 0 then r.st
      else if !o.timer then SessionClose(r.st, s)
      else ScheduleTimeout(r.st, s)
  }

  function WithResult(x: Session, token: Option<int>): Session {
    x.(authenticated := x.authenticated || token.Some?, authResults := x.authResults + 1)
  }

  function WsAuthResult(st: State, s: nat, token: Option<int>, o: Outcome): State
    requires s in st.sessions
  {
    OnAuthResult(SetSession(st, s, WithResult(st.sessions[s], token)), s, token, o)
  }

  /** A refused creation gives its reference back; a held native session breaks an assertion. */
  function PluginOpen(st: State, s: nat): State
    requires s in st.sessions
  {
    var x := st.sessions[s];
    var st1 := SetSession(st, s, x.(openings := x.openings + 1));
    if x.native.Some? then Fail(st1)
    else if ExecutorUp(st) then
      Submit(SetSession(st1, s, st1.sessions[s].(ref := x.ref + 1)), Create(s))
    else st1
  }

  function OnReady(st: State, s: nat): State
    requires s in st.sessions
  {
    PluginOpen(UnscheduleTimeout(st, s), s)
  }

  function RecvReady(st: State, s: nat): State
    requires s in st.sessions
  {
    var x := st.sessions[s];
    if x.readyReceived then st
    else
      var st1 := SetSession(st, s, x.(readyReceived := true));
      if x.allOpened then OnReady(st1, s) else st1
  }

  function StartPing(st: State, s: nat, o: Outcome): State
    requires s in st.sessions
  {
    var x := st.sessions[s];
    var t := st.next;
    if o.timer then
      SetSession(st.(timers := st.timers[t := Ping(s)], ledger := Pinging(st.ledger, s, x.active, t), next := t + 1),
                 s, x.(ping := Some(t)))
    else SetSession(st, s, x.(ping := None))
  }

  function OnAllOpened(st: State, s: nat, o: Outcome): State
    requires s in st.sessions
  {
    var st1 := StartPing(st, s, o);
    var x := st1.sessions[s];
    var st2 := SetSession(st1, s, x.(allOpened := true));
    if x.readyReceived then OnReady(st2, s) else st2
  }

  function OnChannelOpened(st: State, s: nat, c: nat, o: Outcome): State {
    if s !in st.sessions then Fail(st)
    else
      var x := st.sessions[s];
      var st1 := SetSession(st, s, x.(openCount := x.openCount + 1, openedBy := x.openedBy + {c}));
      if x.openCount + 1 == |x.channels| + 1 then OnAllOpened(st1, s, o) else st1
  }

  // ----- Connected -------------------------------------------------------------------

  function EnableReceiving(st: State, slot: Option<nat>): State {
    if slot.None? || slot.value !in st.channels then Fail(st)
    else SetChannel(st, slot.value, st.channels[slot.value].(dcReceive := true))
  }

  function EnableSlots(st: State, slots: seq<Option<nat>>): State {
    if slots == [] then st
    else EnableReceiving(EnableSlots(st, slots[..|slots| - 1]), slots[|slots| - 1])
  }

  function OnConnected(st: State, s: nat): State
    requires s in st.sessions
  {
    EnableReceiving(EnableSlots(st, st.sessions[s].channels), st.sessions[s].system)
  }

  function OnCreated(st: State, s: nat, native: Option<nat>): State {
    if s !in st.sessions then Fail(st)
    else if native.None? then SessionClose(st, s)
    else
      OnConnected(
        SetSession(st.(owners := st.owners[native.value := s]), s, st.sessions[s].(native := native)), s)
  }

  /** A refused command gives the reference of the channel back. */
  function ChannelReceive(st: State, c: nat): State
    requires c in st.channels
  {
    var x := st.channels[c];
    if x.session !in st.sessions then Fail(st)
    else if ExecutorUp(st) then
      Submit(SetChannel(st, c, x.(ref := x.ref + 1)), Receive(c, st.sessions[x.session].native))
    else st
  }

  // ----- Tasks of the event loop -----------------------------------------------------

  function WssEvent(st: State, k: nat, what: RtcEvent, o: Outcome): State {
    match what
    case Client =>
      if k !in st.sockets then Fail(st)
      else if !st.sockets[k].wssActive then st
      else CreateSession(st, k, o)
    case Closed => UnrefSocket(st, k)
    case _ => st
  }

  function ProcessMessage(st: State, s: nat, raw: seq<char>, o: Outcome): State
    requires s in st.sessions
  {
    match Frames.Dispatch(st.sessions[s].authenticated, raw)
    case Auth(_) => WsAuthResult(st, s, o.token, o)
    case Ready => RecvReady(st, s)
    case Overread => Fail(st)
    case Description(_, _) => st
    case Candidate(_, _) => st
    case Ignore => st
  }

  function WsEvent(st: State, s: nat, what: RtcEvent, o: Outcome): State {
    if s !in st.sessions then st
    else
      match what
      case Message(raw) => if st.sessions[s].wsActive then ProcessMessage(st, s, raw, o) else st
      case Closed => UnrefSession(SessionClose(st, s), s)
      case _ => st
  }

  function DataChannelArrived(st: State, s: nat, index: nat): State
    requires s in st.sessions
  {
    var slots := st.sessions[s].channels;
    if index >= |slots| || slots[index].None? then st
    else if slots[index].value !in st.channels then Fail(st)
    else SetChannel(st, slots[index].value, st.channels[slots[index].value].(incoming := true))
  }

  function PcEvent(st: State, s: nat, what: RtcEvent): State {
    match what
    case LocalCandidate => if s !in st.sessions then Fail(st) else st
    case StateChange(lost) => if lost && s !in st.sessions then Fail(st) else st
    case DataChannel(valid, index) =>
      if s !in st.sessions then Fail(st)
      else if !valid then SessionClose(st, s)
      else DataChannelArrived(st, s, index)
    case Closed => UnrefSession(SessionClose(st, s), s)
    case _ => st
  }

  /** The slot of a channel whose DC closed is emptied; the system channel has no slot. */
  function RemoveChannel(st: State, s: nat, index: nat): State {
    if s !in st.sessions then Fail(st)
    else SetSession(st, s, st.sessions[s].(channels := SetSlot(st.sessions[s].channels, index, None)))
  }

  function DcMessage(st: State, c: nat): State
    requires c in st.channels
  {
    var x := st.channels[c];
    if !x.incoming || !x.dcActive || !x.dcReceive then st
    else if x.session !in st.sessions then Fail(st)
    else if st.sessions[x.session].system == Some(c) then st
    else ChannelReceive(st, c)
  }

  function DcEvent(st: State, c: nat, what: RtcEvent, o: Outcome): State {
    if c !in st.channels then st
    else
      match what
      case Open => OnChannelOpened(st, st.channels[c].session, c, o)
      case Error => ChannelClose(st, c)
      case Message(_) => DcMessage(st, c)
      case Closed =>
        var st1 := st.(ledger := Straying(st.ledger, c, st.channels[c]));
        UnrefChannel(RemoveChannel(st1, st.channels[c].session, st.channels[c].index), c)
      case _ => st
  }

  /** Handling a closed event also takes its object out of the outside world. */
  function RtcTask(st: State, source: Rtc, what: RtcEvent, o: Outcome): State {
    var st1 := if what.Closed? then st.(rtc := st.rtc - {source}) else st;
    match source
    case Wss(k) => WssEvent(st1, k, what, o)
    case Ws(s) => WsEvent(st1, s, what, o)
    case Pc(s) => PcEvent(st1, s, what)
    case Dc(c) => DcEvent(st1, c, what, o)
  }

  /** A native session is asked for its private data, the session that owns it: it has to be
      there still, and to have been handed over. Nothing ever clears its private data. */
  predicate Finds(st: State, native: nat) {
    native !in st.destroyed && native in st.owners
  }

  /** Sending to a channel or setting its mode looks the session up by its native session. */
  function DeliverTo(st: State, native: nat, index: nat): State {
    if !Finds(st, native) || st.owners[native] !in st.sessions then Fail(st)
    else
      var slots := st.sessions[st.owners[native]].channels;
      if index < |slots| && slots[index].Some? && slots[index].value !in st.channels then Fail(st) else st
  }

  /** The round-trip time is read on the thread that asks, through the same pointer. */
  function ReadRtt(st: State, native: nat): State {
    if !Finds(st, native) || st.owners[native] !in st.sessions then Fail(st) else st
  }

  function RunTask(st: State, t: Task, o: Outcome): State {
    match t
    case Event(source, what) => RtcTask(st, source, what, o)
    case Listening(native, modes) => AcquireSocket(st, native, modes, o)
    case Stopped(native) => if native in st.socketMap then SocketClose(st, st.socketMap[native]) else st
    case Disconnect(native) => if Finds(st, native) then SessionClose(st, st.owners[native]) else Fail(st)
    case Deliver(native, index) => DeliverTo(st, native, index)
    case Created(s, native) => UnrefSession(OnCreated(st, s, native), s)
    case Received(c) => UnrefChannel(st, c)
  }

  function Loop(st: State, o: Outcome): State
    requires st.tasks != []
  {
    RunTask(st.(tasks := st.tasks[1..]), st.tasks[0], o)
  }

  // ----- The executor, the worker and the timers -------------------------------------

  function RunCommand(st: State, command: Command, o: Outcome): State {
    match command
    case Create(s) =>
      if s !in st.sessions || st.sessions[s].socket !in st.sockets then Fail(st)
      else if o.native then
        st.(tasks := st.tasks + [Created(s, Some(st.next))], made := st.made + {st.next}, next := st.next + 1)
      else st.(tasks := st.tasks + [Created(s, None)])
    case Receive(c, target) =>
      if c !in st.channels || target.None? || target.value in st.destroyed then Fail(st)
      else st.(tasks := st.tasks + [Received(c)])
    case Destroy(native) =>
      if native in st.destroyed then Fail(st)
      else st.(destroyed := st.destroyed + multiset{native})
  }

  function Execute(st: State, o: Outcome): State
    requires st.exec != []
  {
    RunCommand(st.(exec := st.exec[1..]), st.exec[0], o)
  }

  /** The worker stops the WSS, after which no WSS callback runs, then submits the last task. */
  function CloseProcess(st: State, k: nat): State {
    if k !in st.sockets then Fail(st)
    else st.(rtc := st.rtc[Wss(k) := false], tasks := st.tasks + [Event(Wss(k), Closed)])
  }

  function Fire(st: State, t: nat): State
    requires t in st.timers
  {
    match st.timers[t]
    case Timeout(s) =>
      if s !in st.sessions then Fail(st) else SessionClose(UnscheduleTimeout(st, s), s)
    case Ping(s) =>
      if s !in st.sessions || st.sessions[s].system.None? || st.sessions[s].system.value !in st.channels
      then Fail(st) else st
  }

  // ----- Steps -----------------------------------------------------------------------

  datatype Step =
    | Post(source: Rtc, what: RtcEvent)   // an rtc thread posts an event
    | Listen(modes: nat)                  // a native socket starts listening
    | Stop(native: nat)                   // a native socket stops
    | Kick(native: nat)                   // the native side disconnects a session
    | Call(native: nat, index: nat)       // the native side addresses a channel of a session
    | AskRtt(native: nat)                 // the native side reads the round-trip time of a session
    | LoopStep(o: Outcome)
    | ExecStep(o: Outcome)
    | WorkerStep(k: nat)
    | TimerStep(t: nat)

  /** What can happen in a state. An rtc object posts nothing after its closed event, a data
      channel opens once, and the WSS is closed only by the worker. */
  predicate Enabled(st: State, step: Step) {
    !st.fault &&
    match step
    case Post(source, what) =>
      && source in st.rtc && st.rtc[source]
      && !(source.Wss? && what.Closed?)
      && (source.Dc? && what.Open? ==> source.c !in st.openPosted)
    case Listen(modes) => modes <= SYSTEM_INDEX
    case Stop(native) => native in st.listening
    case Kick(native) => native in st.made
    case Call(native, _) => native in st.made
    case AskRtt(native) => native in st.made
    case LoopStep(_) => st.tasks != []
    case ExecStep(_) => st.exec != []
    case WorkerStep(k) => k in st.sockets && !st.sockets[k].wssActive && Wss(k) in st.rtc && st.rtc[Wss(k)]
    case TimerStep(t) => t in st.timers
  }

  function PostEvent(st: State, source: Rtc, what: RtcEvent): State {
    st.(tasks := st.tasks + [Event(source, what)],
        rtc := if what.Closed? then st.rtc[source := false] else st.rtc,
        openPosted := if source.Dc? && what.Open? then st.openPosted + {source.c} else st.openPosted)
  }

  function Next(st: State, step: Step): State
    requires Enabled(st, step)
  {
    match step
    case Post(source, what) => PostEvent(st, source, what)
    case Listen(modes) =>
      st.(tasks := st.tasks + [Listening(st.next, modes)], listening := st.listening + {st.next}, next := st.next + 1)
    case Stop(native) => st.(tasks := st.tasks + [Stopped(native)], listening := st.listening - {native})
    case Kick(native) => st.(tasks := st.tasks + [Disconnect(native)])
    case Call(native, index) => st.(tasks := st.tasks + [Deliver(native, index)])
    case AskRtt(native) => ReadRtt(st, native)
    case LoopStep(o) => Loop(st, o)
    case ExecStep(o) => Execute(st, o)
    case WorkerStep(k) => CloseProcess(st, k)
    case TimerStep(t) => Fire(st, t)
  }
}
