/** Which channels end: those of a session that ends, but for strays, and those that fail. */
module ChannelEndings {
  import opened Wrappers
  import opened Model
  import Frames
  import opened Lifecycle
  import opened Invariants
  import opened Counting
  import opened Unref
  import opened Opening
  import opened Taking
  import opened Connecting
  import opened Executing
  import opened Steps
  import opened Theorems
  import opened Effects
  import opened Isolation
  import opened Steadiness
  import opened Outcomes
  import opened Endings

  predicate Carries(st: State, c: nat) {
    c in st.channels && st.channels[c].active
  }

  /** The DC of the channel reports an error. */
  predicate Fails(st: State, step: Step, c: nat)
    requires Enabled(st, step)
  {
    step.LoopStep? && st.tasks[0] == Event(Dc(c), Error)
  }

  // ----- The channels of other sessions ------------------------------------------------

  lemma SameForeign(channels: Channels, channels': Channels, z: nat, c: nat)
    requires ForeignChannels(channels', z) == ForeignChannels(channels, z)
    requires c in channels && channels[c].session != z
    ensures c in channels' && channels'[c] == channels[c]
  {
    assert c in ForeignChannels(channels, z) && ForeignChannels(channels, z)[c] == channels[c];
    assert c in ForeignChannels(channels', z) && ForeignChannels(channels', z)[c] == channels'[c];
  }

  lemma OtherCarries(st: State, z: nat, c: nat, o: Outcome)
    requires Reachable(st) && st.tasks != [] && !TaskHazard(st, st.tasks[0])
    requires SessionOf(st, st.tasks[0]) == Some(z) && c in st.channels && st.channels[c].session != z
    ensures Carries(Loop(st, o), c) <==> Carries(st, c)
  {
    TaskAlone(st, z, o);
    SameForeign(st.channels, Loop(st, o).channels, z, c);
  }

  lemma StoppedCarries(st: State, n: nat, c: nat, o: Outcome)
    requires Reachable(st) && st.tasks != [] && st.tasks[0] == Stopped(n) && !TaskHazard(st, st.tasks[0])
    requires c in st.channels && st.channels[c].session in st.sessions
    requires !TaskEnds(st, st.tasks[0], st.channels[c].session, o)
    ensures Carries(Loop(st, o), c) <==> Carries(st, c)
  {
    StoppedDistant(st, n, o);
    if n in st.socketMap {
      var k, st' := st.socketMap[n], Loop(st, o);
      assert IsFar(st.channels[c].session, st.sessions, k);
      assert c in FarChannels(st, k) && FarChannels(st, k)[c] == st.channels[c];
      assert c in FarChannels(st', k) && FarChannels(st', k)[c] == st'.channels[c];
    }
  }

  // ----- The tasks of its own session --------------------------------------------------

  lemma WsCarries(st: State, s: nat, what: RtcEvent, c: nat, o: Outcome)
    requires Reachable(st) && st.tasks != [] && st.tasks[0] == Event(Ws(s), what) && !TaskHazard(st, st.tasks[0])
    requires c in st.channels && st.channels[c].session == s && s in st.sessions
    requires !TaskEnds(st, st.tasks[0], s, o)
    ensures Carries(Loop(st, o), c) <==> Carries(st, c)
  {
    if what.Message? {
      var x, raw := st.sessions[s], what.raw;
      FrameIgnored(st, s, raw, o);
      if x.wsActive && x.authenticated {
        Frames.ReadyExactly(raw);
        if Frames.READY <= raw { ReadyTask(st, s, raw, o); }
      } else if x.wsActive {
        NoChannelsYet(st, s, c);
      }
    }
  }

  /** A session that is not authenticated has no channels. */
  lemma NoChannelsYet(st: State, s: nat, c: nat)
    requires Reachable(st) && s in st.sessions && st.sessions[s].wsActive && !st.sessions[s].authenticated
    requires c in st.channels
    ensures st.channels[c].session != s
  {
    ReachableInvariant(st);
    NotYetAuthenticated(st, s, multiset{}, {});
    ChannelFacts(st, c, multiset{}, {});
  }

  lemma PcCarries(st: State, s: nat, what: RtcEvent, c: nat, o: Outcome)
    requires Reachable(st) && st.tasks != [] && st.tasks[0] == Event(Pc(s), what) && !TaskHazard(st, st.tasks[0])
    requires c in st.channels && s in st.sessions && !TaskEnds(st, st.tasks[0], s, o)
    ensures Carries(Loop(st, o), c) <==> Carries(st, c)
  {
    if what.DataChannel? { ArrivedTask(st, s, what.index, o); }
  }

  /** A reference that is not its own keeps an active channel live. */
  lemma ChannelHeld(st: State, c: nat)
    requires Invariant(st) && Carries(st, c)
    requires Dc(c) in st.rtc || ChannelRef(c) in QueueRefs(st.tasks, st.exec)
    ensures st.channels[c].ref > 1
  {
    ChannelFacts(st, c, multiset{}, {});
    assert (QueueRefs(st.tasks, st.exec) + multiset{})[ChannelRef(c)] == QueueRefs(st.tasks, st.exec)[ChannelRef(c)];
  }

  lemma DropsCarries(st: State, st': State, b: nat, c: nat)
    requires b in st.channels && DropsChannel(st, st', b) && c in st.channels && st.channels[b].ref >= 1
    requires Carries(st, b) ==> st.channels[b].ref > 1
    ensures Carries(st', c) <==> Carries(st, c)
  {
  }

  lemma DcCarries(st: State, b: nat, what: RtcEvent, c: nat, o: Outcome)
    requires Reachable(st) && st.tasks != [] && st.tasks[0] == Event(Dc(b), what) && c in st.channels
    ensures Carries(Loop(st, o), c) <==> Carries(st, c) && st.tasks[0] != Event(Dc(c), Error)
  {
    ReachableInvariant(st);
    DcIsLive(st, b, what);
    match what
    case Open => OpenTask(st, b, o);
    case Error => ErrorTask(st, b, o);
    case Message(raw) => MessageTask(st, b, raw, o);
    case Closed => DcClosedCarries(st, b, c, o);
    case _ =>
  }

  lemma DcClosedCarries(st: State, b: nat, c: nat, o: Outcome)
    requires Reachable(st) && st.tasks != [] && st.tasks[0] == Event(Dc(b), RtcEvent.Closed) && c in st.channels
    ensures Carries(Loop(st, o), c) <==> Carries(st, c)
  {
    ReachableInvariant(st);
    DcClosedTask(st, b, o);
    Read(st, multiset{}, {});
    HeadEvents(st.tasks, st.rtc);
    ChannelFacts(st, b, multiset{}, {});
    if Carries(st, b) { ChannelHeld(st, b); }
    DropsCarries(Taken(st), Loop(st, o), b, c);
  }

  lemma ReceivedCarries(st: State, b: nat, c: nat, o: Outcome)
    requires Reachable(st) && st.tasks != [] && st.tasks[0] == Received(b) && c in st.channels
    ensures Carries(Loop(st, o), c) <==> Carries(st, c)
  {
    ReachableInvariant(st);
    ReceivedTask(st, b, o);
    ChannelFacts(st, b, multiset{}, {});
    Popped(TaskRef, st.tasks);
    assert ChannelRef(b) in QueueRefs(st.tasks, st.exec);
    if Carries(st, b) { ChannelHeld(st, b); }
    DropsCarries(Taken(st), Loop(st, o), b, c);
  }

  lemma CreatedCarries(st: State, s: nat, native: Option<nat>, c: nat, o: Outcome)
    requires Reachable(st) && st.tasks != [] && st.tasks[0] == Task.Created(s, native) && c in st.channels
    requires native.Some?
    ensures Carries(Loop(st, o), c) <==> Carries(st, c)
  {
    CreatedTask(st, s, native.value, o);
    assert c in Loop(st, o).channels;
  }

  lemma WssCarries(st: State, k: nat, what: RtcEvent, c: nat, o: Outcome)
    requires Reachable(st) && st.tasks != [] && st.tasks[0] == Event(Wss(k), what) && !what.Client?
    requires c in st.channels
    ensures Carries(Loop(st, o), c) <==> Carries(st, c)
  {
    if what.Closed? { WssClosedTask(st, k, o); }
  }

  lemma ClientCarries(st: State, k: nat, c: nat, o: Outcome)
    requires Reachable(st) && st.tasks != [] && st.tasks[0] == Event(Wss(k), Client) && c in st.channels
    ensures Carries(Loop(st, o), c) <==> Carries(st, c)
  {
    ReachableInvariant(st);
    Unused(st, st.next, multiset{}, {});
    ChannelFacts(st, c, multiset{}, {});
    OtherCarries(st, st.next, c, o);
  }

  lemma EventCarries(st: State, c: nat, o: Outcome)
    requires Reachable(st) && st.tasks != [] && st.tasks[0].Event? && !TaskHazard(st, st.tasks[0])
    requires c in st.channels && st.channels[c].session in st.sessions
    requires !TaskEnds(st, st.tasks[0], st.channels[c].session, o)
    ensures Carries(Loop(st, o), c) <==> Carries(st, c) && st.tasks[0] != Event(Dc(c), Error)
  {
    var s, what := st.channels[c].session, st.tasks[0].what;
    match st.tasks[0].source
    case Wss(k) => if what.Client? { ClientCarries(st, k, c, o); } else { WssCarries(st, k, what, c, o); }
    case Ws(z) => if z == s { WsCarries(st, s, what, c, o); } else { OtherCarries(st, z, c, o); }
    case Pc(z) => if z == s { PcCarries(st, s, what, c, o); } else { OtherCarries(st, z, c, o); }
    case Dc(b) => DcCarries(st, b, what, c, o);
  }

  lemma TaskCarries(st: State, c: nat, o: Outcome)
    requires Reachable(st) && st.tasks != [] && !st.tasks[0].Event? && !TaskHazard(st, st.tasks[0])
    requires c in st.channels && st.channels[c].session in st.sessions
    requires !TaskEnds(st, st.tasks[0], st.channels[c].session, o)
    ensures Carries(Loop(st, o), c) <==> Carries(st, c)
  {
    match st.tasks[0]
    case Listening(n, modes) => ListeningTask(st, n, modes, o);
    case Stopped(n) => StoppedCarries(st, n, c, o);
    case Disconnect(n) =>
      DisconnectTask(st, n, o);
      OtherCarries(st, st.owners[n], c, o);
    case Deliver(_, _) => Passing(st, o);
    case Created(z, native) =>
      if native.None? { FailedCarries(st, z, c, o); } else { CreatedCarries(st, z, native, c, o); }
    case Received(b) => ReceivedCarries(st, b, c, o);
  }

  lemma FailedCarries(st: State, z: nat, c: nat, o: Outcome)
    requires Reachable(st) && st.tasks != [] && st.tasks[0] == Task.Created(z, None) && !TaskHazard(st, st.tasks[0])
    requires c in st.channels && st.channels[c].session != z
    ensures Carries(Loop(st, o), c) <==> Carries(st, c)
  {
    OtherCarries(st, z, c, o);
  }

  lemma TimerCarries(st: State, t: nat, c: nat)
    requires Reachable(st) && t in st.timers && !TimerHazard(st, st.timers[t]) && c in st.channels
    requires st.timers[t] != Timeout(st.channels[c].session)
    ensures Carries(Fire(st, t), c) <==> Carries(st, c)
  {
    if st.timers[t].Ping? {
      PingPasses(st, t);
    } else {
      TimeoutAlone(st, t);
      SameForeign(st.channels, Fire(st, t).channels, st.timers[t].s, c);
    }
  }

  // ----- The channels of a session that ends -------------------------------------------

  /** A channel that is active after all belongs to the same session. */
  lemma SameSession(channels: Channels, channels': Channels, s: nat, c: nat)
    requires ForeignChannels(channels', s) == ForeignChannels(channels, s)
    requires c in channels && channels[c].session == s && c in channels'
    ensures channels'[c].session == s
  {
    assert c in ForeignChannels(channels', s) <==> c in ForeignChannels(channels, s);
  }

  lemma StoppedSession(st: State, n: nat, c: nat, o: Outcome)
    requires Reachable(st) && st.tasks != [] && st.tasks[0] == Stopped(n) && !TaskHazard(st, st.tasks[0])
    requires c in st.channels && st.channels[c].session in st.sessions && n in st.socketMap
    requires st.sessions[st.channels[c].session].socket == st.socketMap[n]
    ensures c in Loop(st, o).channels ==> !Lives(Loop(st, o), Loop(st, o).channels[c].session)
  {
    var k, st' := st.socketMap[n], Loop(st, o);
    StoppedDistant(st, n, o);
    StoppedTask(st, n, o);
    if c in st'.channels { NotFar(st, st', k, c); }
  }

  lemma NotFar(st: State, st': State, k: nat, c: nat)
    requires FarChannels(st', k) == FarChannels(st, k) && c in st'.channels
    requires c in st.channels && !IsFar(st.channels[c].session, st.sessions, k)
    ensures !IsFar(st'.channels[c].session, st'.sessions, k)
  {
    assert c in FarChannels(st', k) <==> c in FarChannels(st, k);
  }

  lemma EndedSession(st: State, step: Step, c: nat)
    requires Reachable(st) && Enabled(st, step) && !Hazard(st, step) && c in st.channels
    requires st.channels[c].session in st.sessions && Ends(st, step, st.channels[c].session)
    ensures c in Next(st, step).channels ==> !Lives(Next(st, step), Next(st, step).channels[c].session)
  {
    var s, st' := st.channels[c].session, Next(st, step);
    if step.LoopStep? && st.tasks[0].Stopped? {
      StoppedSession(st, st.tasks[0].native, c, step.o);
    } else if c in st'.channels {
      EndsAlone(st, step, s);
      SameSession(st.channels, st'.channels, s, c);
      EndsExactly(st, step, s);
    }
  }

  lemma EndsAlone(st: State, step: Step, s: nat)
    requires Reachable(st) && Enabled(st, step) && !Hazard(st, step)
    requires s in st.sessions && Ends(st, step, s) && !(step.LoopStep? && st.tasks[0].Stopped?)
    ensures ForeignChannels(Next(st, step).channels, s) == ForeignChannels(st.channels, s)
  {
    if step.LoopStep? { TaskAlone(st, s, step.o); } else { TimeoutAlone(st, step.t); }
  }

  /** A step that ends a session makes no channel a stray, and no stray anything else. */
  lemma EndsSteady(st: State, step: Step, s: nat)
    requires Enabled(st, step) && s in st.sessions && Ends(st, step, s)
    ensures Next(st, step).ledger.strays == st.ledger.strays
  {
    NextSteady(st, step);
  }

  // ----- Every step --------------------------------------------------------------------

  lemma HasSession(st: State, c: nat)
    requires Reachable(st) && c in st.channels
    ensures st.channels[c].session in st.sessions
  {
    ReachableInvariant(st);
    ChannelFacts(st, c, multiset{}, {});
  }

  /** Unless its session ends, a channel is active after a step if and only if it was so before and
      its DC did not fail. */
  lemma FailsExactly(st: State, step: Step, c: nat)
    requires Reachable(st) && Enabled(st, step) && !Hazard(st, step) && c in st.channels
    ensures st.channels[c].session in st.sessions
    ensures !Ends(st, step, st.channels[c].session) ==>
              (Carries(Next(st, step), c) <==> Carries(st, c) && !Fails(st, step, c))
  {
    HasSession(st, c);
    if !Ends(st, step, st.channels[c].session) {
      match step
      case LoopStep(o) => if st.tasks[0].Event? { EventCarries(st, c, o); } else { TaskCarries(st, c, o); }
      case TimerStep(t) => TimerCarries(st, t, c);
      case ExecStep(o) => CommandTask(st, o);
      case _ =>
    }
  }
  /** In every reachable state, a channel is active after a step if and only if it was so before, its
      DC did not fail, and its session did not end, or the channel is a stray. */
  lemma CarriesExactly(st: State, step: Step, c: nat)
    requires Reachable(st) && Enabled(st, step) && !Hazard(st, step) && c in st.channels
    ensures st.channels[c].session in st.sessions
    ensures Carries(Next(st, step), c) <==>
              && Carries(st, c) && !Fails(st, step, c)
              && (Ends(st, step, st.channels[c].session) ==> c in st.ledger.strays)
  {
    FailsExactly(st, step, c);
    if Ends(st, step, st.channels[c].session) { EndedCarries(st, step, c); }
  }

  lemma EndedCarries(st: State, step: Step, c: nat)
    requires Reachable(st) && Enabled(st, step) && !Hazard(st, step) && c in st.channels
    requires st.channels[c].session in st.sessions && Ends(st, step, st.channels[c].session)
    ensures Carries(Next(st, step), c) <==> c in st.ledger.strays
    ensures c in st.ledger.strays ==> Carries(st, c)
  {
    ReachableInvariant(st);
    NextKeeps(st, step);
    EndsSteady(st, step, st.channels[c].session);
    EndedSession(st, step, c);
    ClosedThroughout(Next(st, step));
    if c in st.ledger.strays {
      StrayCarries(st, c);
      StrayCarries(Next(st, step), c);
    }
  }

  lemma StrayCarries(st: State, c: nat)
    requires Invariant(st) && c in st.ledger.strays
    ensures Carries(st, c)
  {
    Read(st, multiset{}, {});
    assert IsStray(c, st.channels, st.rtc, st.ledger);
  }
}
