/** Once every socket is closed, the plugin drains: every step that handles what is outstanding
    decreases a measure, and when nothing is left, nothing but the strays is live. */
module Drain {
  import opened Wrappers
  import opened Model
  import opened Lifecycle
  import opened Invariants
  import opened Counting
  import opened Updates
  import opened Unref
  import opened Dwindling
  import opened Closing
  import opened Opening
  import opened Handshaking
  import opened Taking
  import opened Connecting
  import opened Pushing
  import opened Executing
  import opened Steps
  import opened Theorems

  /** Every socket is closed, and no new one is on its way. */
  ghost predicate ShutDown(st: State) {
    && (forall k :: k in st.sockets ==> !st.sockets[k].active)
    && (forall t :: t in st.tasks ==> !t.Listening?)
  }

  /** The steps that handle what is outstanding: closed events are posted and handled, tasks and
      commands run, timeouts fire. */
  ghost predicate Drains(st: State, step: Step) {
    match step
    case Post(_, what) => what.Closed?
    case LoopStep(_) => true
    case ExecStep(_) => true
    case WorkerStep(_) => true
    case TimerStep(t) => t in st.timers && st.timers[t].Timeout?
    case _ => false
  }

  // ----- The measure -------------------------------------------------------------------

  function OpenObjects(rtc: RtcMap): set<Rtc> {
    set x | x in rtc && rtc[x]
  }

  function Timeouts(timers: Timers): set<nat> {
    set t | t in timers && timers[t].Timeout?
  }

  /** The last open event may still ask for a native session. */
  function TaskWeight(t: Task): nat {
    if IsOpen(t) then 5 else 1
  }

  /** A creation may still make a native session; a destroy takes one away. */
  function CommandWeight(command: Command): int {
    match command
    case Create(_) => 4
    case Receive(_, _) => 2
    case Destroy(_) => -1
  }

  function TasksWeight(tasks: seq<Task>): nat {
    if tasks == [] then 0 else TasksWeight(tasks[..|tasks| - 1]) + TaskWeight(tasks[|tasks| - 1])
  }

  function ExecWeight(exec: seq<Command>): int {
    if exec == [] then 0 else ExecWeight(exec[..|exec| - 1]) + CommandWeight(exec[|exec| - 1])
  }

  /** Two for each native session that is neither destroyed nor lost. */
  function NativesWeight(made: set<nat>, destroyed: multiset<nat>, lost: multiset<nat>): int {
    2 * (|made| - |destroyed| - |lost|)
  }

  function Measure(st: State): int {
    2 * |OpenObjects(st.rtc)| + TasksWeight(st.tasks) + ExecWeight(st.exec)
    + NativesWeight(st.made, st.destroyed, st.lost) + |Timeouts(st.timers)|
  }

  lemma {:induction false} ExecWeightBound(exec: seq<Command>)
    ensures ExecWeight(exec) + |Requested(exec)| >= 0
  {
    if exec != [] { ExecWeightBound(exec[..|exec| - 1]); }
  }

  /** The measure is never negative: what is to be destroyed was made. */
  lemma MeasureBound(st: State)
    requires Invariant(st)
    ensures Measure(st) >= TasksWeight(st.tasks) + |Timeouts(st.timers)|
  {
    var gone: multiset<nat> := Requested(st.exec) + st.destroyed + st.lost;
    var made: multiset<nat> := multiset(st.made);
    assert Holds(Natives, st, multiset{}, {});
    forall n: nat ensures gone[n] <= made[n] {
      assert OnePlace(n, st.sessions, st.tasks, st.exec, st.made, st.destroyed, st.lost);
    }
    SubbagSize(gone, made);
    ExecWeightBound(st.exec);
  }

  lemma TaskPushed(tasks: seq<Task>, t: Task)
    ensures TasksWeight(tasks + [t]) == TasksWeight(tasks) + TaskWeight(t)
  {
    assert (tasks + [t])[..|tasks|] == tasks;
  }

  lemma {:induction false} TaskPopped(tasks: seq<Task>)
    requires tasks != []
    ensures TasksWeight(tasks) == TaskWeight(tasks[0]) + TasksWeight(tasks[1..])
  {
    var n := |tasks| - 1;
    if n > 0 {
      TaskPopped(tasks[..n]);
      assert tasks[1..][..n - 1] == tasks[..n][1..];
    }
  }

  lemma CommandPushed(exec: seq<Command>, command: Command)
    ensures ExecWeight(exec + [command]) == ExecWeight(exec) + CommandWeight(command)
  {
    assert (exec + [command])[..|exec|] == exec;
  }

  lemma {:induction false} CommandPopped(exec: seq<Command>)
    requires exec != []
    ensures ExecWeight(exec) == CommandWeight(exec[0]) + ExecWeight(exec[1..])
  {
    var n := |exec| - 1;
    if n > 0 {
      CommandPopped(exec[..n]);
      assert exec[1..][..n - 1] == exec[..n][1..];
    }
  }

  // ----- Dropping references -----------------------------------------------------------

  lemma {:induction false} DestroysLighten(exec: seq<Command>, exec': seq<Command>)
    requires OnlyDestroys(exec, exec')
    ensures ExecWeight(exec') <= ExecWeight(exec)
    decreases |exec'|
  {
    if |exec'| > |exec| {
      var n := |exec'| - 1;
      assert exec'[..n][..|exec|] == exec'[..|exec|];
      DestroysLighten(exec, exec'[..n]);
    } else {
      assert exec' == exec;
    }
  }

  lemma SubbagSize<T>(a: multiset<T>, b: multiset<T>)
    requires a <= b
    ensures |a| <= |b|
  {
    assert b == a + (b - a);
  }

  /** The measure grows by at most n, and no socket opens. */
  ghost predicate Adds(st: State, st': State, n: nat) {
    Measure(st') <= Measure(st) + n && (ShutDown(st) ==> ShutDown(st'))
  }

  lemma DwindlesLightens(st: State, st': State)
    requires Dwindles(st, st')
    ensures Adds(st, st', 0)
  {
    DestroysLighten(st.exec, st'.exec);
    SubbagSize(st.lost, st'.lost);
    SubsetSize(Timeouts(st'.timers), Timeouts(st.timers));
  }

  // ----- One step ----------------------------------------------------------------------

  lemma AllInactive(st: State)
    requires Invariant(st) && ShutDown(st)
    ensures forall s :: s in st.sessions ==> !st.sessions[s].active && !st.sessions[s].wsActive
    ensures forall k :: k in st.sockets ==> !st.sockets[k].wssActive
  {
    var busy: set<Ref> := {};
    Read(st, multiset{}, busy);
    forall k | k in st.sockets ensures !st.sockets[k].wssActive {
      assert ListSound(k, st.sockets, st.sessions, busy);
    }
    forall s | s in st.sessions ensures !st.sessions[s].active && !st.sessions[s].wsActive {
      SessionFacts(st, s, multiset{}, busy);
      assert ListSound(st.sessions[s].socket, st.sockets, st.sessions, busy);
    }
  }

  lemma OneFewer(rtc: RtcMap, x: Rtc)
    requires x in rtc && rtc[x]
    ensures |OpenObjects(rtc[x := false])| == |OpenObjects(rtc)| - 1
  {
    var open', open := OpenObjects(rtc[x := false]), OpenObjects(rtc);
    forall y ensures y in open' <==> y in open - {x} {}
    assert open' == open - {x} && x in open;
  }

  lemma PostLightens(st: State, x: Rtc)
    requires x in st.rtc && st.rtc[x]
    ensures
      var st' := st.(tasks := st.tasks + [Event(x, Closed)], rtc := st.rtc[x := false]);
      Measure(st') < Measure(st) && (ShutDown(st) ==> ShutDown(st'))
  {
    OneFewer(st.rtc, x);
    TaskPushed(st.tasks, Event(x, Closed));
    var st' := st.(tasks := st.tasks + [Event(x, Closed)], rtc := st.rtc[x := false]);
    if ShutDown(st) {
      forall t | t in st'.tasks ensures !t.Listening? {}
    }
  }

  lemma ExecuteLightens(st: State, o: Outcome)
    requires Invariant(st) && ShutDown(st) && st.exec != []
    ensures Measure(Execute(st, o)) < Measure(st) && ShutDown(Execute(st, o))
  {
    CommandLive(st);
    CommandPopped(st.exec);
    match st.exec[0]
    case Create(s) => CreateLightens(st, s, o);
    case Receive(c, _) => AnswerLightens(st, Received(c));
    case Destroy(n) =>
  }

  lemma AnswerLightens(st: State, t: Task)
    requires ShutDown(st) && st.exec != [] && CommandWeight(st.exec[0]) >= 2 && !t.Listening? && TaskWeight(t) == 1
    ensures
      var st' := st.(exec := st.exec[1..], tasks := st.tasks + [t]);
      Measure(st') < Measure(st) && ShutDown(st')
  {
    CommandPopped(st.exec);
    TaskPushed(st.tasks, t);
  }

  lemma CreateLightens(st: State, s: nat, o: Outcome)
    requires Invariant(st) && ShutDown(st) && st.exec != [] && st.exec[0] == Command.Create(s)
    requires s in st.sessions && st.sessions[s].socket in st.sockets
    ensures Measure(Execute(st, o)) < Measure(st) && ShutDown(Execute(st, o))
  {
    if o.native {
      var n, t := st.next, Task.Created(s, Some(st.next));
      Unused(st, n, multiset{}, {});
      CommandPopped(st.exec);
      TaskPushed(st.tasks, t);
      assert |st.made + {n}| == |st.made| + 1;
    } else {
      AnswerLightens(st, Task.Created(s, None));
    }
  }

  lemma TimeoutLightens(st: State, t: nat)
    requires Invariant(st) && ShutDown(st) && t in st.timers && st.timers[t].Timeout?
    ensures Measure(Fire(st, t)) < Measure(st) && ShutDown(Fire(st, t))
  {
    var s := st.timers[t].s;
    AllInactive(st);
    assert Holds(Clocks, st, multiset{}, {});
    assert TimerOwned(t, st.sessions, st.timers);
    UnscheduleTimeoutIs(st, s);
    assert Timeouts(st.timers - {t}) == Timeouts(st.timers) - {t};
    assert t in Timeouts(st.timers);
  }

  /** Taking the first task off the queue takes its weight away. */
  lemma TakenLightens(st: State)
    requires Invariant(st) && ShutDown(st) && st.tasks != []
    ensures Measure(Taken(st)) == Measure(st) - TaskWeight(st.tasks[0]) && ShutDown(Taken(st))
  {
    assert Holds(Events, st, multiset{}, {});
    assert NoneAfterClosed(0, st.tasks, st.rtc);
    TaskPopped(st.tasks);
    assert OpenObjects(RtcAfter(st.tasks[0], st.rtc)) == OpenObjects(st.rtc);
  }

  lemma Idle(st: State)
    ensures Dwindles(st, st)
  {
  }

  /** Dropping the reference in hand from a session that is closed already. */
  lemma ClosedLightens(st: State, s: nat)
    requires s in st.sessions && !st.sessions[s].active
    ensures Dwindles(st, UnrefSession(SessionClose(st, s), s))
  {
    UnrefSessionDwindles(st, s);
  }

  lemma WssTaskLightens(st: State, k: nat, what: RtcEvent, o: Outcome)
    requires k in st.sockets ==> !st.sockets[k].wssActive
    requires what.Client? ==> k in st.sockets
    ensures Dwindles(st, WssEvent(st, k, what, o))
  {
    Idle(st);
    if what.Closed? { UnrefSocketDwindles(st, k); }
  }

  lemma WsTaskLightens(st: State, s: nat, what: RtcEvent, o: Outcome)
    requires s in st.sessions ==> !st.sessions[s].active && !st.sessions[s].wsActive
    ensures Dwindles(st, WsEvent(st, s, what, o))
  {
    Idle(st);
    if s in st.sessions && what.Closed? { ClosedLightens(st, s); }
  }

  lemma ChannelChanges(st: State, channels': Channels, fault': bool)
    requires st.fault ==> fault'
    ensures Dwindles(st, st.(channels := channels', fault := fault'))
  {
  }

  lemma ArrivedLightens(st: State, s: nat, index: nat)
    requires s in st.sessions
    ensures Dwindles(st, DataChannelArrived(st, s, index))
  {
    var slots := st.sessions[s].channels;
    Idle(st);
    if index < |slots| && slots[index].Some? {
      ChannelChanges(st, DataChannelArrived(st, s, index).channels, st.fault);
      ChannelChanges(st, st.channels, true);
    }
  }

  lemma PcTaskLightens(st: State, s: nat, what: RtcEvent)
    requires s in st.sessions && !st.sessions[s].active
    ensures Dwindles(st, PcEvent(st, s, what))
  {
    Idle(st);
    match what
    case DataChannel(valid, index) =>
      if valid { ArrivedLightens(st, s, index); }
    case Closed => ClosedLightens(st, s);
    case _ =>
  }

  /** A channel whose DC closes leaves its slot, and then drops the reference of its DC. */
  function Unslotted(st: State, c: nat): State
    requires c in st.channels
  {
    RemoveChannel(st.(ledger := Straying(st.ledger, c, st.channels[c])), st.channels[c].session, st.channels[c].index)
  }

  lemma DcClosedLightens(st: State, c: nat, o: Outcome)
    requires c in st.channels && st.channels[c].session in st.sessions
    ensures Dwindles(Unslotted(st, c), DcEvent(st, c, Closed, o))
    ensures Adds(st, DcEvent(st, c, Closed, o), 0)
  {
    UnrefChannelDwindles(Unslotted(st, c), c);
    DwindlesLightens(Unslotted(st, c), DcEvent(st, c, Closed, o));
  }

  lemma DcTaskLightens(st: State, c: nat, what: RtcEvent, o: Outcome)
    requires c in st.channels && st.channels[c].session in st.sessions && !what.Open?
    requires what.Message? ==> !st.channels[c].dcActive
    ensures Adds(st, DcEvent(st, c, what, o), 0)
  {
    match what
    case Error =>
      ChannelCloseDwindles(st, c);
      DwindlesLightens(st, ChannelClose(st, c));
    case Closed => DcClosedLightens(st, c, o);
    case _ =>
  }

  // ----- The late open event -----------------------------------------------------------

  lemma PingedWeighs(st: State, s: nat, y: Session, o: Outcome)
    requires s in st.sessions && st.next !in st.timers
    ensures Adds(st, SetSession(Pinged(st, s, o), s, y), 0)
  {
    assert Timeouts(PingTimers(st.timers, st.next, s, o)) == Timeouts(st.timers);
  }

  lemma AskWeighs(st: State, s: nat, y: Session)
    requires s in st.sessions
    ensures Adds(st, Ask(st, s, y), 4)
  {
    CommandPushed(st.exec, Command.Create(s));
  }

  lemma LastOpenWeighs(st: State, s: nat, c: nat, o: Outcome)
    requires s in st.sessions && st.sessions[s].openCount == |st.sessions[s].channels| && st.sessions[s].readyReceived
    requires st.sessions[s].native.None? && st.next !in st.timers
    ensures Adds(st, OnChannelOpened(st, s, c, o), 4)
  {
    var y := SeesOpen(st.sessions[s], c).(allOpened := true, ping := PingOf(st, o));
    AllOpenedIs(st, s, c, o);
    OnReadyAsks(Pinged(st, s, o), s, y);
    PingedAskWeighs(st, s, y.(timeout := None), o);
  }

  lemma PingedAskWeighs(st: State, s: nat, y: Session, o: Outcome)
    requires s in st.sessions && st.next !in st.timers
    ensures Adds(st, Ask(UnscheduleTimeout(Pinged(st, s, o), s), s, y), 4)
  {
    var st1 := Pinged(st, s, o);
    PingedWeighs(st, s, st.sessions[s], o);
    assert SetSession(st1, s, st.sessions[s]) == st1;
    UnscheduleTimeoutDwindles(st1, s);
    DwindlesLightens(st1, UnscheduleTimeout(st1, s));
    AskWeighs(UnscheduleTimeout(st1, s), s, y);
  }

  /** The last open event may ask for the native session, even of a closed session. */
  lemma OpenWeighs(st: State, s: nat, c: nat, o: Outcome)
    requires Inv(st, multiset{}, {}) && OpenAtHand(st, s, c)
    ensures Adds(st, OnChannelOpened(st, s, c, o), 4)
  {
    var x := st.sessions[s];
    OpenFacts(st, s, c, SeesOpen(x, c), multiset{}, {});
    OpenCounted(x, c, QueueRefs(st.tasks, st.exec)[SessionRef(s)], 0);
    Unused(st, st.next, multiset{}, {});
    if x.openCount < |x.channels| {
      assert OnChannelOpened(st, s, c, o) == SetSession(st, s, SeesOpen(x, c));
    } else if x.readyReceived {
      LastOpenWeighs(st, s, c, o);
    } else {
      AllOpenedIs(st, s, c, o);
      PingedWeighs(st, s, SeesOpen(x, c).(allOpened := true, ping := PingOf(st, o)), o);
    }
  }

  // ----- The native session that arrives late ------------------------------------------

  lemma CreatedLightens(st: State, s: nat, n: nat)
    requires s in st.sessions
    ensures Adds(st, UnrefSession(OnCreated(st, s, Some(n)), s), 0)
  {
    var x := st.sessions[s];
    var st1 := SetSession(st.(owners := st.owners[n := s]), s, x.(native := Some(n)));
    var st2 := EnableSlots(st1, x.channels);
    EnableSlotsOnly(st1, x.channels);
    var st3 := EnableReceiving(st2, x.system);
    assert st3 == st1.(channels := st3.channels, fault := st3.fault);
    assert OnCreated(st, s, Some(n)) == st3;
    UnrefSessionDwindles(st3, s);
    DwindlesLightens(st3, UnrefSession(st3, s));
  }

  // ----- Every task --------------------------------------------------------------------

  lemma DcTaskTaken(st: State, c: nat, what: RtcEvent, o: Outcome)
    requires Invariant(st) && ShutDown(st) && st.tasks != [] && st.tasks[0] == Event(Dc(c), what)
    ensures Measure(Loop(st, o)) < Measure(st) && ShutDown(Loop(st, o))
  {
    TakenLightens(st);
    if what.Open? {
      DcOpenTaken(st, c);
      OpenWeighs(Taken(st), st.channels[c].session, c, o);
    } else {
      AllInactive(st);
      assert Holds(Events, st, multiset{}, {}) && Holds(Counts, st, multiset{}, {});
      HeadEvents(st.tasks, st.rtc);
      assert RtcRef(Dc(c)) == ChannelRef(c);
      assert Live(st.sockets, st.sessions, st.channels, RtcRef(Dc(c)));
      ChannelFacts(st, c, multiset{}, {});
      DcTaskLightens(Taken(st), c, what, o);
    }
  }

  lemma WssTaskTaken(st: State, k: nat, what: RtcEvent, o: Outcome)
    requires Invariant(st) && ShutDown(st) && st.tasks != [] && st.tasks[0] == Event(Wss(k), what)
    ensures Dwindles(Taken(st), Loop(st, o))
  {
    AllInactive(st);
    PlainTaken(st);
    assert RtcRef(Wss(k)) == SocketRef(k);
    WssTaskLightens(Taken(st), k, what, o);
    assert Loop(st, o) == WssEvent(Taken(st), k, what, o);
  }

  lemma WsTaskTaken(st: State, s: nat, what: RtcEvent, o: Outcome)
    requires Invariant(st) && ShutDown(st) && st.tasks != [] && st.tasks[0] == Event(Ws(s), what)
    ensures Dwindles(Taken(st), Loop(st, o))
  {
    AllInactive(st);
    WsTaskLightens(Taken(st), s, what, o);
    assert Loop(st, o) == WsEvent(Taken(st), s, what, o);
  }

  lemma PcTaskTaken(st: State, s: nat, what: RtcEvent, o: Outcome)
    requires Invariant(st) && ShutDown(st) && st.tasks != [] && st.tasks[0] == Event(Pc(s), what)
    ensures Dwindles(Taken(st), Loop(st, o))
  {
    AllInactive(st);
    PlainTaken(st);
    assert RtcRef(Pc(s)) == SessionRef(s);
    PcTaskLightens(Taken(st), s, what);
    assert Loop(st, o) == PcEvent(Taken(st), s, what);
  }

  lemma EventTaken(st: State, source: Rtc, what: RtcEvent, o: Outcome)
    requires Invariant(st) && ShutDown(st) && st.tasks != [] && st.tasks[0] == Event(source, what) && !source.Dc?
    ensures Measure(Loop(st, o)) < Measure(st) && ShutDown(Loop(st, o))
  {
    match source {
      case Wss(k) => WssTaskTaken(st, k, what, o);
      case Ws(s) => WsTaskTaken(st, s, what, o);
      case Pc(s) => PcTaskTaken(st, s, what, o);
    }
    TakenLightens(st);
    DwindlesLightens(Taken(st), Loop(st, o));
  }

  lemma CreatedTaken(st: State, s: nat, created: Option<nat>, o: Outcome)
    requires Invariant(st) && ShutDown(st) && st.tasks != [] && st.tasks[0] == Task.Created(s, created)
    ensures Adds(Taken(st), Loop(st, o), 0)
  {
    AllInactive(st);
    StillWaiting(st, s, created);
    if created.Some? {
      CreatedLightens(Taken(st), s, created.value);
    } else {
      ClosedLightens(Taken(st), s);
      DwindlesLightens(Taken(st), UnrefSession(SessionClose(Taken(st), s), s));
    }
  }

  lemma ReceivedTaken(st: State, o: Outcome)
    requires st.tasks != [] && st.tasks[0].Received?
    ensures Adds(Taken(st), Loop(st, o), 0)
  {
    UnrefChannelDwindles(Taken(st), st.tasks[0].c);
    DwindlesLightens(Taken(st), UnrefChannel(Taken(st), st.tasks[0].c));
  }

  /** A disconnect, a message or a mode finds every session closed, or none. */
  lemma AddressedTaken(st: State, o: Outcome)
    requires Invariant(st) && ShutDown(st) && st.tasks != [] && (st.tasks[0].Disconnect? || st.tasks[0].Deliver?)
    ensures Loop(st, o) == Taken(st) || Loop(st, o) == Fail(Taken(st))
    ensures Adds(Taken(st), Loop(st, o), 0)
  {
    AllInactive(st);
  }

  lemma OtherTaken(st: State, o: Outcome)
    requires Invariant(st) && ShutDown(st) && st.tasks != [] && !st.tasks[0].Event?
    ensures Measure(Loop(st, o)) < Measure(st) && ShutDown(Loop(st, o))
  {
    TakenLightens(st);
    match st.tasks[0]
    case Created(s, created) => CreatedTaken(st, s, created, o);
    case Received(_) => ReceivedTaken(st, o);
    case Listening(_, _) => assert false;
    case Stopped(n) => SocketClosedAlready(Taken(st), n);
    case Disconnect(_) => AddressedTaken(st, o);
    case Deliver(_, _) => AddressedTaken(st, o);
  }

  lemma SocketClosedAlready(st: State, n: nat)
    requires ShutDown(st)
    ensures n in st.socketMap ==> Adds(st, SocketClose(st, st.socketMap[n]), 0)
  {
  }

  /** Every step that handles what is outstanding decreases the measure, which is never
      negative. */
  lemma DrainDecreases(st: State, step: Step)
    requires Reachable(st) && ShutDown(st) && Enabled(st, step) && Drains(st, step)
    ensures 0 <= Measure(st) && Measure(Next(st, step)) < Measure(st) && ShutDown(Next(st, step))
  {
    ReachableInvariant(st);
    MeasureBound(st);
    match step
    case Post(x, _) => PostLightens(st, x);
    case LoopStep(o) =>
      match st.tasks[0] {
        case Event(source, what) =>
          if source.Dc? { DcTaskTaken(st, source.c, what, o); } else { EventTaken(st, source, what, o); }
        case _ => OtherTaken(st, o);
      }
    case ExecStep(o) => ExecuteLightens(st, o);
    case WorkerStep(k) => PostLightens(st, Wss(k));
    case TimerStep(t) => TimeoutLightens(st, t);
  }

  ghost predicate DrainRun(st: State, steps: seq<Step>)
    decreases |steps|
  {
    steps == [] || (Enabled(st, steps[0]) && Drains(st, steps[0]) && DrainRun(Next(st, steps[0]), steps[1..]))
  }

  lemma {:induction false} StillReachable(st: State, step: Step)
    requires Reachable(st) && Enabled(st, step) && !Hazard(st, step)
    ensures Reachable(Next(st, step))
  {
    ReachableInvariant(st);
    NextKeeps(st, step);
    var steps :| st == Run(steps);
    assert (steps + [step])[..|steps|] == steps;
    assert Next(st, step) == Run(steps + [step]);
  }

  /** A draining step that faults takes a task. */
  lemma FaultWeighs(st: State, step: Step)
    requires Reachable(st) && ShutDown(st) && Enabled(st, step) && Drains(st, step) && Next(st, step).fault
    ensures Measure(st) >= 1
  {
    ReachableInvariant(st);
    NextKeeps(st, step);
    MeasureBound(st);
    if step.TimerStep? {
      assert step.t in Timeouts(st.timers);
    } else {
      TaskPopped(st.tasks);
    }
  }

  /** No run of draining steps is longer than the measure. */
  lemma {:induction false} DrainEnds(st: State, steps: seq<Step>)
    requires Reachable(st) && ShutDown(st) && DrainRun(st, steps)
    ensures |steps| <= Measure(st)
    decreases |steps|
  {
    ReachableInvariant(st);
    MeasureBound(st);
    if steps != [] {
      var st' := Next(st, steps[0]);
      DrainDecreases(st, steps[0]);
      NextKeeps(st, steps[0]);
      if !st'.fault {
        StillReachable(st, steps[0]);
        DrainEnds(st', steps[1..]);
      } else {
        FaultWeighs(st, steps[0]);
      }
    }
  }

  // ----- The end -----------------------------------------------------------------------

  /** Nothing is outstanding. */
  ghost predicate Drained(st: State) {
    st.tasks == [] && st.exec == [] && st.rtc == map[] && Timeouts(st.timers) == {}
  }

  /** When no draining step is left, nothing is outstanding. */
  lemma NothingLeft(st: State, o: Outcome)
    requires Reachable(st) && ShutDown(st)
    requires forall step :: Enabled(st, step) ==> !Drains(st, step)
    ensures Drained(st)
  {
    ReachableInvariant(st);
    Read(st, multiset{}, {});
    assert Drains(st, LoopStep(o)) && Drains(st, ExecStep(o));
    forall t | t in st.timers ensures !st.timers[t].Timeout? {
      assert Drains(st, TimerStep(t)) <==> st.timers[t].Timeout?;
    }
    forall x | x in st.rtc ensures false {
      OutsideQuiet(st, x);
    }
  }

  lemma OutsideQuiet(st: State, x: Rtc)
    requires Invariant(st) && ShutDown(st) && x in st.rtc && st.tasks == []
    ensures exists step :: Enabled(st, step) && Drains(st, step)
  {
    Read(st, multiset{}, {});
    assert ClosedPosted(x, st.tasks, st.rtc);
    if x.Wss? {
      assert RtcRef(x) == SocketRef(x.k);
      assert Live(st.sockets, st.sessions, st.channels, RtcRef(x));
      AllInactive(st);
      assert x == Wss(x.k);
      assert Enabled(st, WorkerStep(x.k)) && Drains(st, WorkerStep(x.k));
    } else {
      assert Enabled(st, Post(x, Closed)) && Drains(st, Post(x, Closed));
    }
  }

  lemma SystemsClosed(st: State)
    requires Invariant(st) && ShutDown(st)
    ensures forall c :: c in st.channels && st.channels[c].active ==> st.channels[c].index != SYSTEM_INDEX
  {
    AllInactive(st);
    forall c | c in st.channels && st.channels[c].active ensures st.channels[c].index != SYSTEM_INDEX {
      ChannelFacts(st, c, multiset{}, {});
    }
  }

  lemma ChannelsLeft(st: State)
    requires Reachable(st) && ShutDown(st) && Drained(st)
    ensures st.channels.Keys == st.ledger.strays
  {
    ReachableInvariant(st);
    assert Holds(Books, st, multiset{}, {});
    References(st);
    SystemsClosed(st);
    forall c: nat ensures c in st.channels <==> c in st.ledger.strays {
      assert IsStray(c, st.channels, st.rtc, st.ledger);
      if c in st.channels { assert PendingReceives(st, c) == 0; }
    }
  }

  /** Of the objects that are left, every socket has a session, every session a channel, and
      every channel is a stray. */
  lemma OnlyStraysLeft(st: State)
    requires Reachable(st) && ShutDown(st) && Drained(st)
    ensures st.channels.Keys == st.ledger.strays
    ensures forall s :: s in st.sessions ==> exists c :: c in st.channels && st.channels[c].session == s
    ensures forall k :: k in st.sockets ==> exists s :: s in st.sessions && st.sessions[s].socket == k
  {
    ReachableInvariant(st);
    References(st);
    AllInactive(st);
    ChannelsLeft(st);
    forall s | s in st.sessions ensures exists c :: c in st.channels && st.channels[c].session == s {
      assert PendingCreates(st, s) == 0;
      assert ChannelsOf(st.channels, s) != {};
      var c :| c in ChannelsOf(st.channels, s);
      assert c in st.channels && st.channels[c].session == s;
    }
    forall k | k in st.sockets ensures exists s :: s in st.sessions && st.sessions[s].socket == k {
      assert SessionsOf(st.sessions, k) != {};
      var s :| s in SessionsOf(st.sessions, k);
      assert s in st.sessions && st.sessions[s].socket == k;
    }
  }

  /** Nothing is outstanding for the objects of this socket, whatever goes on elsewhere: their rtc
      objects have closed, and no creation and no receive of theirs is pending. */
  ghost predicate SocketQuiet(st: State, k: nat) {
    && Wss(k) !in st.rtc
    && (forall s :: s in st.sessions && st.sessions[s].socket == k ==>
          Ws(s) !in st.rtc && Pc(s) !in st.rtc && PendingCreates(st, s) == 0)
    && (forall c :: c in st.channels && SocketOf(st, c) == Some(k) ==>
          Dc(c) !in st.rtc && PendingReceives(st, c) == 0)
  }

  function SocketOf(st: State, c: nat): Option<nat>
    requires c in st.channels
  {
    if st.channels[c].session in st.sessions then Some(st.sessions[st.channels[c].session].socket) else None
  }

  /** A closed socket for whose objects nothing is outstanding is still live if and only if one of
      its channels is a stray; and each of its sessions has such a channel. */
  lemma QuietSocketGone(st: State, k: nat)
    requires Reachable(st) && SocketQuiet(st, k) && (k in st.sockets ==> !st.sockets[k].active)
    ensures k in st.sockets
            <==> exists c :: c in st.channels && SocketOf(st, c) == Some(k) && c in st.ledger.strays
    ensures forall s :: s in st.sessions && st.sessions[s].socket == k ==>
              exists c :: c in st.channels && st.channels[c].session == s && c in st.ledger.strays
  {
    References(st);
    NoDanglingParents(st);
    ListedWhileActive(st);
    forall s | s in st.sessions && st.sessions[s].socket == k
      ensures exists c :: c in st.channels && st.channels[c].session == s && c in st.ledger.strays
    {
      QuietSessionStrays(st, k, s);
    }
    if k in st.sockets {
      assert SessionsOf(st.sessions, k) != {};
      var s :| s in SessionsOf(st.sessions, k);
      var c :| c in st.channels && st.channels[c].session == s && c in st.ledger.strays;
      assert SocketOf(st, c) == Some(k);
    }
  }

  lemma QuietSessionStrays(st: State, k: nat, s: nat)
    requires Reachable(st) && SocketQuiet(st, k) && s in st.sessions && st.sessions[s].socket == k
    requires !st.sessions[s].active
    ensures exists c :: c in st.channels && st.channels[c].session == s && c in st.ledger.strays
  {
    ReachableInvariant(st);
    References(st);
    assert ChannelsOf(st.channels, s) != {};
    var c :| c in ChannelsOf(st.channels, s);
    ChannelFacts(st, c, multiset{}, {});
    assert SocketOf(st, c) == Some(k);
    assert Holds(Books, st, multiset{}, {});
    assert IsStray(c, st.channels, st.rtc, st.ledger);
  }

  /** A plugin that has drained has released every object it acquired, each of them once, and
      emptied the socket map, if and only if no data channel was active when the closed event
      of its DC was handled. */
  lemma DrainReleasesAll(st: State)
    requires Reachable(st) && ShutDown(st) && Drained(st)
    ensures st.ledger.strays == {}
            <==> st.sockets == map[] && st.sessions == map[] && st.channels == map[] && st.socketMap == map[]
    ensures st.ledger.strays == {} ==> forall r :: r in st.ledger.acquired ==> st.ledger.released[r] == 1
    ensures st.ledger.strays == {} ==> forall n: nat :: st.destroyed[n] + st.lost[n] == B(n in st.made)
  {
    ReachableInvariant(st);
    OnlyStraysLeft(st);
    NoDanglingParents(st);
    assert Holds(Maps, st, multiset{}, {});
    forall n | n in st.socketMap ensures st.socketMap[n] in st.sockets {
      assert MapsToLive(n, st.sockets, st.socketMap);
    }
    if st.ledger.strays == {} {
      assert st.channels == map[];
      assert st.sessions == map[];
      assert st.sockets == map[];
      assert st.socketMap == map[];
      forall r | r in st.ledger.acquired ensures st.ledger.released[r] == 1 {
        assert !Live(st.sockets, st.sessions, st.channels, r);
      }
      forall n: nat ensures st.destroyed[n] + st.lost[n] == B(n in st.made) {
        NativesConserved(st, n);
        assert HoldersOf(st.sessions, n) == {};
      }
    }
  }
}
