/** Which sessions end: exactly those that a step is meant to close. */
module Endings {
  import opened Wrappers
  import opened Model
  import Frames
  import opened Lifecycle
  import opened Invariants
  import opened Counting
  import opened Updates
  import opened Unref
  import opened Opening
  import opened Taking
  import opened Connecting
  import opened Steps
  import opened Theorems
  import opened Effects
  import opened Isolation
  import opened Outcomes

  predicate Lives(st: State, s: nat) {
    s in st.sessions && st.sessions[s].active
  }

  /** The service and the pools let the session authenticate. */
  predicate Accepts(st: State, s: nat, o: Outcome)
    requires s in st.sessions
  {
    && o.token.Some? && (o.token.value > 0 ==> o.timer) && o.resize
    && st.sessions[s].socket in st.sockets && o.acquired > st.sockets[st.sessions[s].socket].modes
  }

  /** An event of the session itself that ends it: its WS or its PC closed, an AUTH frame with a
      token that was not accepted, or a data channel under a wrong name. */
  predicate EventEnds(st: State, source: Rtc, what: RtcEvent, s: nat, o: Outcome)
    requires s in st.sessions
  {
    match what
    case Closed => source == Ws(s) || source == Pc(s)
    case Message(raw) =>
      && source == Ws(s) && st.sessions[s].wsActive && !st.sessions[s].authenticated
      && |raw| > |Frames.AUTH| + 2 && Frames.AUTH <= raw && !Accepts(st, s, o)
    case DataChannel(valid, _) => source == Pc(s) && !valid
    case _ => false
  }

  /** The other tasks that end it: its native socket stops, the native server disconnects it, or it
      got no native session. */
  predicate TaskEnds(st: State, t: Task, s: nat, o: Outcome)
    requires s in st.sessions
  {
    match t
    case Event(source, what) => EventEnds(st, source, what, s, o)
    case Stopped(n) => n in st.socketMap && st.socketMap[n] == st.sessions[s].socket
    case Disconnect(n) => n in st.owners && st.owners[n] == s
    case Created(z, native) => z == s && native.None?
    case _ => false
  }

  /** And its timeout. */
  predicate Ends(st: State, step: Step, s: nat)
    requires Enabled(st, step) && s in st.sessions
  {
    match step
    case LoopStep(o) => TaskEnds(st, st.tasks[0], s, o)
    case TimerStep(t) => st.timers[t] == Timeout(s)
    case _ => false
  }

  // ----- The events of the session -----------------------------------------------------

  lemma WsEnds(st: State, s: nat, what: RtcEvent, o: Outcome)
    requires Reachable(st) && st.tasks != [] && st.tasks[0] == Event(Ws(s), what) && !TaskHazard(st, st.tasks[0])
    requires s in st.sessions
    ensures Lives(Loop(st, o), s) <==> Lives(st, s) && !TaskEnds(st, st.tasks[0], s, o)
  {
    match what
    case Closed => ClosedTask(st, Ws(s), s, o);
    case Message(raw) => FrameEnds(st, s, raw, o);
    case _ =>
  }

  lemma FrameEnds(st: State, s: nat, raw: seq<char>, o: Outcome)
    requires Reachable(st) && st.tasks != [] && st.tasks[0] == Event(Ws(s), Message(raw))
    requires s in st.sessions && !TaskHazard(st, st.tasks[0])
    ensures Lives(Loop(st, o), s) <==> Lives(st, s) && !TaskEnds(st, st.tasks[0], s, o)
  {
    var x := st.sessions[s];
    if x.wsActive && x.authenticated {
      LaterFrameEnds(st, s, raw, o);
    } else if x.wsActive {
      FirstFrameEnds(st, s, raw, o);
    } else {
      FrameIgnored(st, s, raw, o);
    }
  }

  lemma LaterFrameEnds(st: State, s: nat, raw: seq<char>, o: Outcome)
    requires Reachable(st) && st.tasks != [] && st.tasks[0] == Event(Ws(s), Message(raw))
    requires s in st.sessions && !TaskHazard(st, st.tasks[0])
    requires st.sessions[s].wsActive && st.sessions[s].authenticated
    ensures Lives(Loop(st, o), s) <==> Lives(st, s)
  {
    Frames.ReadyExactly(raw);
    if Frames.READY <= raw { ReadyTask(st, s, raw, o); } else { FrameIgnored(st, s, raw, o); }
  }

  lemma FirstFrameEnds(st: State, s: nat, raw: seq<char>, o: Outcome)
    requires Reachable(st) && st.tasks != [] && st.tasks[0] == Event(Ws(s), Message(raw))
    requires s in st.sessions && !TaskHazard(st, st.tasks[0])
    requires st.sessions[s].wsActive && !st.sessions[s].authenticated
    ensures Lives(Loop(st, o), s) <==> Lives(st, s) && !TaskEnds(st, st.tasks[0], s, o)
  {
    Frames.Unauthenticated(raw);
    if |raw| > |Frames.AUTH| + 2 && Frames.AUTH <= raw {
      OpenLives(st, s);
      AuthTask(st, s, raw, o);
    } else {
      FrameIgnored(st, s, raw, o);
    }
  }

  lemma OpenLives(st: State, s: nat)
    requires Reachable(st) && s in st.sessions && st.sessions[s].wsActive
    ensures Lives(st, s)
  {
    ReachableInvariant(st);
    ClosedThroughout(st);
  }

  lemma PcEnds(st: State, s: nat, what: RtcEvent, o: Outcome)
    requires Reachable(st) && st.tasks != [] && st.tasks[0] == Event(Pc(s), what) && !TaskHazard(st, st.tasks[0])
    requires s in st.sessions
    ensures Lives(Loop(st, o), s) <==> Lives(st, s) && !TaskEnds(st, st.tasks[0], s, o)
  {
    match what
    case Closed => ClosedTask(st, Pc(s), s, o);
    case DataChannel(valid, index) => DataChannelEnds(st, s, valid, index, o);
    case _ => Passing(st, o);
  }

  lemma DataChannelEnds(st: State, s: nat, valid: bool, index: nat, o: Outcome)
    requires Reachable(st) && st.tasks != [] && st.tasks[0] == Event(Pc(s), DataChannel(valid, index))
    requires s in st.sessions && !TaskHazard(st, st.tasks[0])
    ensures Lives(Loop(st, o), s) <==> Lives(st, s) && valid
  {
    if valid { ArrivedTask(st, s, index, o); } else { MisnamedTask(st, s, index, o); }
  }

  // ----- The events of its channels ----------------------------------------------------

  /** An active session with a channel has a reference of its own besides that of the channel. */
  lemma ActiveHeld(st: State, c: nat)
    requires Invariant(st) && c in st.channels && Lives(st, st.channels[c].session)
    ensures st.sessions[st.channels[c].session].ref > 1
  {
    SessionFacts(st, st.channels[c].session, multiset{}, {});
    assert c in ChannelsOf(st.channels, st.channels[c].session);
  }

  lemma HeldStays(st: State, c: nat)
    requires c in st.channels && st.channels[c].session in st.sessions && st.sessions[st.channels[c].session].ref > 1
    ensures st.channels[c].session in UnrefChannel(st, c).sessions
  {
  }

  lemma DcClosedEnds(st: State, c: nat, o: Outcome)
    requires Reachable(st) && st.tasks != [] && st.tasks[0] == Event(Dc(c), RtcEvent.Closed)
    ensures c in st.channels && st.channels[c].session in st.sessions
    ensures Lives(Loop(st, o), st.channels[c].session) <==> Lives(st, st.channels[c].session)
  {
    DcClosedTask(st, c, o);
    ReachableInvariant(st);
    var s := st.channels[c].session;
    if Lives(st, s) {
      ActiveHeld(st, c);
      LoopDcClosed(st, c, o);
      HeldStays(Taken(st).(sessions := st.sessions[s := Emptied(st.sessions[s], st.channels[c].index)],
                           ledger := Straying(st.ledger, c, st.channels[c])), c);
    }
  }

  lemma ReceivedEnds(st: State, c: nat, o: Outcome)
    requires Reachable(st) && st.tasks != [] && st.tasks[0] == Received(c)
    ensures c in st.channels && st.channels[c].session in st.sessions
    ensures Lives(Loop(st, o), st.channels[c].session) <==> Lives(st, st.channels[c].session)
  {
    ReceivedTask(st, c, o);
    ReachableInvariant(st);
    if Lives(st, st.channels[c].session) {
      ActiveHeld(st, c);
      HeldStays(Taken(st), c);
    }
  }

  /** No event of a data channel ends a session. */
  lemma DcEnds(st: State, c: nat, what: RtcEvent, o: Outcome)
    requires Reachable(st) && st.tasks != [] && st.tasks[0] == Event(Dc(c), what)
    requires c in st.channels && st.channels[c].session in st.sessions
    ensures Lives(Loop(st, o), st.channels[c].session) <==> Lives(st, st.channels[c].session)
  {
    match what
    case Open => OpenTask(st, c, o);
    case Error => ErrorTask(st, c, o);
    case Message(raw) => MessageTask(st, c, raw, o);
    case Closed => DcClosedEnds(st, c, o);
    case _ =>
  }

  // ----- The other tasks ---------------------------------------------------------------

  lemma CreatedEnds(st: State, s: nat, native: Option<nat>, o: Outcome)
    requires Reachable(st) && st.tasks != [] && st.tasks[0] == Task.Created(s, native) && !TaskHazard(st, st.tasks[0])
    ensures s in st.sessions
    ensures Lives(Loop(st, o), s) <==> Lives(st, s) && native.Some?
  {
    if native.None? {
      FailedTask(st, s, o);
    } else {
      CreatedTask(st, s, native.value, o);
      if Lives(st, s) { WaitingHeld(st, s, native); }
    }
  }

  lemma WaitingHeld(st: State, s: nat, native: Option<nat>)
    requires Reachable(st) && st.tasks != [] && st.tasks[0] == Task.Created(s, native) && Lives(st, s)
    ensures st.sessions[s].ref > 1
  {
    ReachableInvariant(st);
    StillWaiting(st, s, native);
    SessionFacts(st, s, multiset{}, {});
  }

  lemma StoppedEnds(st: State, n: nat, s: nat, o: Outcome)
    requires Reachable(st) && st.tasks != [] && st.tasks[0] == Stopped(n) && !TaskHazard(st, st.tasks[0])
    requires s in st.sessions
    ensures Lives(Loop(st, o), s) <==> Lives(st, s) && !TaskEnds(st, st.tasks[0], s, o)
  {
    StoppedDistant(st, n, o);
    if n in st.socketMap {
      var k, st' := st.socketMap[n], Loop(st, o);
      StoppedTask(st, n, o);
      assert IsFar(s, st'.sessions, k) <==> s in FarSessions(st'.sessions, k);
      assert IsFar(s, st.sessions, k) <==> s in FarSessions(st.sessions, k);
    }
  }

  /** Another session than the one the task is about. */
  lemma OtherEnds(st: State, z: nat, s: nat, o: Outcome)
    requires Reachable(st) && st.tasks != [] && !TaskHazard(st, st.tasks[0])
    requires SessionOf(st, st.tasks[0]) == Some(z) && s != z && s in st.sessions
    ensures Lives(Loop(st, o), s) <==> Lives(st, s) && !TaskEnds(st, st.tasks[0], s, o)
  {
    OthersOnly(st, z, s, o);
    OtherStays(st, z, s, o);
  }

  lemma OtherStays(st: State, z: nat, s: nat, o: Outcome)
    requires Reachable(st) && st.tasks != [] && !TaskHazard(st, st.tasks[0])
    requires SessionOf(st, st.tasks[0]) == Some(z) && s != z && s in st.sessions
    ensures Lives(Loop(st, o), s) <==> Lives(st, s)
  {
    TaskAlone(st, z, o);
    SameElsewhere(st.sessions, Loop(st, o).sessions, z, s);
  }

  lemma OthersOnly(st: State, z: nat, s: nat, o: Outcome)
    requires st.tasks != [] && SessionOf(st, st.tasks[0]) == Some(z) && s != z && s in st.sessions
    ensures !TaskEnds(st, st.tasks[0], s, o)
  {
  }

  lemma SameElsewhere(sessions: Sessions, sessions': Sessions, z: nat, s: nat)
    requires sessions' - {z} == sessions - {z} && s != z
    ensures s in sessions' <==> s in sessions
    ensures s in sessions ==> sessions'[s] == sessions[s]
  {
    assert s in sessions' - {z} <==> s in sessions - {z};
    if s in sessions { assert (sessions' - {z})[s] == (sessions - {z})[s]; }
  }

  lemma TaskEndsExactly(st: State, s: nat, o: Outcome)
    requires Reachable(st) && st.tasks != [] && !TaskHazard(st, st.tasks[0]) && s in st.sessions
    ensures Lives(Loop(st, o), s) <==> Lives(st, s) && !TaskEnds(st, st.tasks[0], s, o)
  {
    var of := SessionOf(st, st.tasks[0]);
    if of.Some? && of.value != s {
      OtherEnds(st, of.value, s, o);
    } else if st.tasks[0].Event? {
      EventEndsExactly(st, st.tasks[0].source, st.tasks[0].what, s, o);
    } else {
      OwnEndsExactly(st, s, o);
    }
  }

  lemma DisconnectEnds(st: State, n: nat, s: nat, o: Outcome)
    requires Reachable(st) && st.tasks != [] && st.tasks[0] == Disconnect(n) && !TaskHazard(st, st.tasks[0])
    requires SessionOf(st, st.tasks[0]) in {None, Some(s)}
    ensures n in st.owners && st.owners[n] == s && !Lives(Loop(st, o), s)
  {
    DisconnectTask(st, n, o);
  }

  lemma OwnEndsExactly(st: State, s: nat, o: Outcome)
    requires Reachable(st) && st.tasks != [] && !TaskHazard(st, st.tasks[0]) && s in st.sessions
    requires !st.tasks[0].Event? && SessionOf(st, st.tasks[0]) in {None, Some(s)}
    ensures Lives(Loop(st, o), s) <==> Lives(st, s) && !TaskEnds(st, st.tasks[0], s, o)
  {
    match st.tasks[0]
    case Stopped(n) => StoppedEnds(st, n, s, o);
    case Listening(n, modes) => ListeningTask(st, n, modes, o);
    case Disconnect(n) => DisconnectEnds(st, n, s, o);
    case Deliver(_, _) => Passing(st, o);
    case Created(_, native) => CreatedEnds(st, s, native, o);
    case Received(c) => ReceivedEnds(st, c, o);
  }

  lemma EventEndsExactly(st: State, source: Rtc, what: RtcEvent, s: nat, o: Outcome)
    requires Reachable(st) && st.tasks != [] && !TaskHazard(st, st.tasks[0]) && s in st.sessions
    requires st.tasks[0] == Event(source, what)
    requires SessionOf(st, st.tasks[0]) in {None, Some(s)}
    ensures Lives(Loop(st, o), s) <==> Lives(st, s) && !TaskEnds(st, st.tasks[0], s, o)
  {
    ReachableInvariant(st);
    match source
    case Wss(k) => WssEnds(st, k, what, s, o);
    case Ws(_) => WsEnds(st, s, what, o);
    case Pc(_) => PcEnds(st, s, what, o);
    case Dc(c) =>
      DcIsLive(st, c, what);
      DcEnds(st, c, what, o);
  }

  /** Only a client task is about a session, and then about a new one. */
  lemma WssEnds(st: State, k: nat, what: RtcEvent, s: nat, o: Outcome)
    requires Reachable(st) && st.tasks != [] && st.tasks[0] == Event(Wss(k), what) && s in st.sessions
    requires SessionOf(st, st.tasks[0]) in {None, Some(s)}
    ensures Lives(Loop(st, o), s) <==> Lives(st, s)
  {
    ReachableInvariant(st);
    Unused(st, st.next, multiset{}, {});
    if what.Closed? { WssClosedTask(st, k, o); }
  }

  lemma DcIsLive(st: State, c: nat, what: RtcEvent)
    requires Invariant(st) && st.tasks != [] && st.tasks[0] == Event(Dc(c), what)
    ensures c in st.channels && st.channels[c].session in st.sessions
  {
    Read(st, multiset{}, {});
    HeadEvents(st.tasks, st.rtc);
    assert RtcRef(Dc(c)) == ChannelRef(c);
    assert Live(st.sockets, st.sessions, st.channels, RtcRef(Dc(c)));
    ChannelFacts(st, c, multiset{}, {});
  }

  lemma TimerEnds(st: State, t: nat, s: nat)
    requires Reachable(st) && t in st.timers && !TimerHazard(st, st.timers[t]) && s in st.sessions
    ensures Lives(Fire(st, t), s) <==> Lives(st, s) && st.timers[t] != Timeout(s)
  {
    if st.timers[t].Ping? {
      PingPasses(st, t);
    } else {
      var z, st' := st.timers[t].s, Fire(st, t);
      TimeoutTask(st, t);
      TimeoutAlone(st, t);
      if z != s {
        SameElsewhere(st.sessions, st'.sessions, z, s);
      }
    }
  }

  // ----- Every step --------------------------------------------------------------------

  /** In every reachable state, a session is active after a step if and only if it was so before and
      the step does not end it. */
  lemma EndsExactly(st: State, step: Step, s: nat)
    requires Reachable(st) && Enabled(st, step) && !Hazard(st, step) && s in st.sessions
    ensures Lives(Next(st, step), s) <==> Lives(st, s) && !Ends(st, step, s)
  {
    match step
    case LoopStep(o) => TaskEndsExactly(st, s, o);
    case TimerStep(t) => TimerEnds(st, t, s);
    case ExecStep(o) => CommandTask(st, o);
    case _ =>
  }
}
