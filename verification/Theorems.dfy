/** What holds in every state of every run. */
module Theorems {
  import opened Wrappers
  import opened Model
  import Frames
  import opened Lifecycle
  import opened Invariants
  import opened Counting
  import opened Updates
  import opened Unref
  import opened Dwindling
  import opened Closing
  import opened Opening
  import opened Handshaking
  import opened Taking
  import opened Connecting
  import opened Pushing
  import opened Executing
  import opened Steps

  // ----- Runs --------------------------------------------------------------------------

  /** The state after these steps, where a step that is not enabled does nothing. */
  ghost function Run(steps: seq<Step>): State {
    if steps == [] then Initial
    else
      var st, step := Run(steps[..|steps| - 1]), steps[|steps| - 1];
      if Enabled(st, step) then Next(st, step) else st
  }

  /** The last step of a run in two parts. */
  lemma RunSplits(before: seq<Step>, after: seq<Step>)
    requires after != []
    ensures
      var st, step := Run(before + after[..|after| - 1]), after[|after| - 1];
      Run(before + after) == if Enabled(st, step) then Next(st, step) else st
  {
    LastOf(before, after);
    RunUnfolds(before + after);
  }

  lemma LastOf<T>(before: seq<T>, after: seq<T>)
    requires after != []
    ensures
      var all := before + after;
      all != [] && all[..|all| - 1] == before + after[..|after| - 1] && all[|all| - 1] == after[|after| - 1]
  {
  }

  lemma RunUnfolds(steps: seq<Step>)
    requires steps != []
    ensures
      var st, step := Run(steps[..|steps| - 1]), steps[|steps| - 1];
      Run(steps) == if Enabled(st, step) then Next(st, step) else st
  {
  }

  ghost predicate Reachable(st: State) {
    !st.fault && exists steps :: st == Run(steps)
  }

  lemma {:induction false} RunInvariant(steps: seq<Step>)
    ensures Run(steps).fault || Invariant(Run(steps))
  {
    if steps == [] {
      InitiallyInvariant();
    } else {
      var n := |steps| - 1;
      RunInvariant(steps[..n]);
      if Enabled(Run(steps[..n]), steps[n]) { NextKeeps(Run(steps[..n]), steps[n]); }
    }
  }

  /** Some step of the run is a hazard of the state it starts from. */
  ghost predicate Hazardous(steps: seq<Step>) {
    steps != [] &&
    var st, step := Run(steps[..|steps| - 1]), steps[|steps| - 1];
    Hazardous(steps[..|steps| - 1]) || (Enabled(st, step) && Hazard(st, step))
  }

  /** A run follows a NULL or stale pointer if and only if it runs into a hazard. */
  lemma {:induction false} RunFaults(steps: seq<Step>)
    ensures Run(steps).fault <==> Hazardous(steps)
  {
    if steps != [] {
      var st, step := Run(steps[..|steps| - 1]), steps[|steps| - 1];
      RunFaults(steps[..|steps| - 1]);
      RunInvariant(steps[..|steps| - 1]);
      if Enabled(st, step) { NextKeeps(st, step); }
    }
  }

  lemma ReachableInvariant(st: State)
    requires Reachable(st)
    ensures Invariant(st)
  {
    var steps :| st == Run(steps);
    RunInvariant(steps);
  }

  // ----- References --------------------------------------------------------------------

  /** The positions in a queue of the elements that satisfy p. */
  function Where<T>(queue: seq<T>, p: T -> bool): set<nat> {
    set i: nat | i < |queue| && p(queue[i])
  }

  lemma {:induction false} GatherCounts<T(!new), R>(of: T -> multiset<R>, queue: seq<T>, r: R, p: T -> bool)
    requires forall x: T {:trigger of(x)} :: of(x)[r] == B(p(x))
    ensures Gather(of, queue)[r] == |Where(queue, p)|
  {
    if queue != [] {
      var n := |queue| - 1;
      GatherCounts(of, queue[..n], r, p);
      assert Where(queue, p) == Where(queue[..n], p) + if p(queue[n]) then {n} else {};
    }
  }

  function CreateCommands(exec: seq<Command>, s: nat): set<nat> {
    set i: nat | i < |exec| && exec[i] == Command.Create(s)
  }

  function CreatedTasks(tasks: seq<Task>, s: nat): set<nat> {
    set i: nat | i < |tasks| && tasks[i].Created? && tasks[i].s == s
  }

  function ReceiveCommands(exec: seq<Command>, c: nat): set<nat> {
    set i: nat | i < |exec| && exec[i].Receive? && exec[i].c == c
  }

  function ReceivedTasks(tasks: seq<Task>, c: nat): set<nat> {
    set i: nat | i < |tasks| && tasks[i] == Received(c)
  }

  function PendingCreates(st: State, s: nat): nat {
    |CreateCommands(st.exec, s)| + |CreatedTasks(st.tasks, s)|
  }

  function PendingReceives(st: State, c: nat): nat {
    |ReceiveCommands(st.exec, c)| + |ReceivedTasks(st.tasks, c)|
  }

  lemma TaskRefsPending(tasks: seq<Task>, n: nat)
    ensures Gather(TaskRef, tasks)[SocketRef(n)] == 0
    ensures Gather(TaskRef, tasks)[SessionRef(n)] == |CreatedTasks(tasks, n)|
    ensures Gather(TaskRef, tasks)[ChannelRef(n)] == |ReceivedTasks(tasks, n)|
  {
    var none := (t: Task) => false;
    GatherCounts(TaskRef, tasks, SocketRef(n), none);
    assert Where(tasks, none) == {};
    TaskCreations(tasks, n);
    TaskReceives(tasks, n);
  }

  lemma TaskCreations(tasks: seq<Task>, n: nat)
    ensures Gather(TaskRef, tasks)[SessionRef(n)] == |CreatedTasks(tasks, n)|
  {
    var created := (t: Task) => t.Created? && t.s == n;
    GatherCounts(TaskRef, tasks, SessionRef(n), created);
    assert Where(tasks, created) == CreatedTasks(tasks, n);
  }

  lemma TaskReceives(tasks: seq<Task>, n: nat)
    ensures Gather(TaskRef, tasks)[ChannelRef(n)] == |ReceivedTasks(tasks, n)|
  {
    var received := (t: Task) => t == Received(n);
    GatherCounts(TaskRef, tasks, ChannelRef(n), received);
    assert Where(tasks, received) == ReceivedTasks(tasks, n);
  }

  lemma CommandCreations(exec: seq<Command>, n: nat)
    ensures Gather(CommandRef, exec)[SessionRef(n)] == |CreateCommands(exec, n)|
  {
    var create := (x: Command) => x == Command.Create(n);
    GatherCounts(CommandRef, exec, SessionRef(n), create);
    assert Where(exec, create) == CreateCommands(exec, n);
  }

  lemma CommandReceives(exec: seq<Command>, n: nat)
    ensures Gather(CommandRef, exec)[ChannelRef(n)] == |ReceiveCommands(exec, n)|
  {
    var receive := (x: Command) => x.Receive? && x.c == n;
    GatherCounts(CommandRef, exec, ChannelRef(n), receive);
    assert Where(exec, receive) == ReceiveCommands(exec, n);
  }

  lemma CommandRefsPending(exec: seq<Command>, n: nat)
    ensures Gather(CommandRef, exec)[SocketRef(n)] == 0
    ensures Gather(CommandRef, exec)[SessionRef(n)] == |CreateCommands(exec, n)|
    ensures Gather(CommandRef, exec)[ChannelRef(n)] == |ReceiveCommands(exec, n)|
  {
    var none := (x: Command) => false;
    GatherCounts(CommandRef, exec, SocketRef(n), none);
    assert Where(exec, none) == {};
    CommandCreations(exec, n);
    CommandReceives(exec, n);
  }

  lemma RefsPending(st: State, n: nat)
    ensures QueueRefs(st.tasks, st.exec)[SocketRef(n)] == 0
    ensures QueueRefs(st.tasks, st.exec)[SessionRef(n)] == PendingCreates(st, n)
    ensures QueueRefs(st.tasks, st.exec)[ChannelRef(n)] == PendingReceives(st, n)
  {
    TaskRefsPending(st.tasks, n);
    CommandRefsPending(st.exec, n);
  }

  /** Every reference has its owner, and every count is the number of its owners. */
  lemma References(st: State)
    requires Reachable(st)
    ensures forall k :: k in st.sockets ==>
              st.sockets[k].ref == B(st.sockets[k].active) + B(Wss(k) in st.rtc) + |SessionsOf(st.sessions, k)| >= 1
    ensures forall s :: s in st.sessions ==>
              st.sessions[s].ref == B(st.sessions[s].active) + B(Ws(s) in st.rtc) + B(Pc(s) in st.rtc)
                                    + |ChannelsOf(st.channels, s)| + PendingCreates(st, s) >= 1
    ensures forall c :: c in st.channels ==>
              st.channels[c].ref == B(st.channels[c].active) + B(Dc(c) in st.rtc) + PendingReceives(st, c) >= 1
    ensures forall s :: s in st.sessions ==> PendingCreates(st, s) <= 1
  {
    ReachableInvariant(st);
    Read(st, multiset{}, {});
    var refs := QueueRefs(st.tasks, st.exec);
    assert refs + multiset{} == refs;
    forall k | k in st.sockets
      ensures st.sockets[k].ref == B(st.sockets[k].active) + B(Wss(k) in st.rtc) + |SessionsOf(st.sessions, k)| >= 1
    {
      assert SocketCounted(k, st.sockets, st.sessions, st.rtc, refs);
      RefsPending(st, k);
    }
    forall s | s in st.sessions
      ensures st.sessions[s].ref == B(st.sessions[s].active) + B(Ws(s) in st.rtc) + B(Pc(s) in st.rtc)
                                    + |ChannelsOf(st.channels, s)| + PendingCreates(st, s) >= 1
      ensures PendingCreates(st, s) <= 1
    {
      assert SessionCounted(s, st.sockets, st.sessions, st.channels, st.rtc, refs);
      assert Progresses(s, st.sessions, refs);
      RefsPending(st, s);
    }
    forall c | c in st.channels
      ensures st.channels[c].ref == B(st.channels[c].active) + B(Dc(c) in st.rtc) + PendingReceives(st, c) >= 1
    {
      assert ChannelCounted(c, st.sessions, st.channels, st.rtc, refs);
      RefsPending(st, c);
    }
  }

  /** Parents outlive their children, and every object acquired is either live or released,
      and released once. */
  lemma NoDanglingParents(st: State)
    requires Reachable(st)
    ensures forall c :: c in st.channels ==> st.channels[c].session in st.sessions
    ensures forall s :: s in st.sessions ==> st.sessions[s].socket in st.sockets
    ensures forall r :: r in st.ledger.acquired ==>
              (Live(st.sockets, st.sessions, st.channels, r) <==> st.ledger.released[r] == 0)
    ensures forall r :: st.ledger.released[r] <= 1
    ensures forall r :: Live(st.sockets, st.sessions, st.channels, r) ==> r in st.ledger.acquired
  {
    ReachableInvariant(st);
    Read(st, multiset{}, {});
    forall c | c in st.channels ensures st.channels[c].session in st.sessions {
      assert InSlot(c, st.sessions, st.channels, st.rtc);
    }
    forall s | s in st.sessions ensures st.sessions[s].socket in st.sockets {
      assert SessionCounted(s, st.sockets, st.sessions, st.channels, st.rtc, QueueRefs(st.tasks, st.exec) + multiset{});
    }
    forall r
      ensures B(r in st.ledger.acquired) == B(Live(st.sockets, st.sessions, st.channels, r)) + st.ledger.released[r]
    {
      assert Accounted(r, st.sockets, st.sessions, st.channels, st.ledger);
    }
  }

  // ----- Native sessions ---------------------------------------------------------------

  /** A native session made is in exactly one place. It has an owner once it was handed over;
      only its owner holds it, and an owner that is released has given it up. */
  lemma NativesConserved(st: State, n: nat)
    requires Reachable(st)
    ensures |HoldersOf(st.sessions, n)| + Transit(st.tasks)[n] + Requested(st.exec)[n] + st.destroyed[n] + st.lost[n]
            == B(n in st.made)
    ensures n in st.owners <==> n in st.made && Transit(st.tasks)[n] == 0
    ensures forall s :: s in HoldersOf(st.sessions, n) ==> n in st.owners && st.owners[n] == s
    ensures n in st.owners && st.owners[n] !in st.sessions ==>
              Requested(st.exec)[n] + st.destroyed[n] + st.lost[n] == 1
  {
    ReachableInvariant(st);
    assert Holds(Natives, st, multiset{}, {}) && Holds(Owners, st, multiset{}, {});
    assert OnePlace(n, st.sessions, st.tasks, st.exec, st.made, st.destroyed, st.lost);
    assert HandedOver(n, st.tasks, st.owners, st.made);
    forall s | s in HoldersOf(st.sessions, n) ensures n in st.owners && st.owners[n] == s {
      assert OwnsNative(s, st.sessions, st.owners);
    }
    if n in st.owners && st.owners[n] !in st.sessions {
      assert HoldersOf(st.sessions, n) == {};
    }
  }

  /** While a session holds its native session, it is found by it: sending, setting a mode and
      reading the round-trip time do not fault, and a disconnect only if the session is stale. */
  lemma HeldFinds(st: State, s: nat, index: nat)
    requires Reachable(st) && s in st.sessions && st.sessions[s].native.Some?
    ensures
      var n := st.sessions[s].native.value;
      && Finds(st, n) && st.owners[n] == s
      && !TaskHazard(st, Deliver(n, index)) && !Hazard(st, AskRtt(n))
      && (TaskHazard(st, Disconnect(n)) <==> StaleIn(st, s))
  {
    ReachableInvariant(st);
    HeldUndestroyed(st, s, st.sessions[s].native.value, multiset{}, {});
    assert Holds(Owners, st, multiset{}, {});
    assert OwnsNative(s, st.sessions, st.owners);
  }

  /** Where a native session goes when it is given up. */
  lemma DestroyRequested(st: State, s: nat)
    requires s in st.sessions && st.sessions[s].native.Some?
    ensures
      var n, st' := st.sessions[s].native.value, DestroyNative(st, s);
      && st'.sessions[s].native.None?
      && (ExecutorUp(st) ==> st'.lost == st.lost && Requested(st'.exec) == Requested(st.exec) + multiset{n})
      && (!ExecutorUp(st) ==> st'.lost == st.lost + multiset{n} && st'.exec == st.exec)
  {
    Pushed(RequestOf, st.exec, Destroy(st.sessions[s].native.value));
  }

  /** A receive or a destroy that the executor runs finds its native session undestroyed. */
  lemma UseBeforeDestroy(st: State, o: Outcome)
    requires Reachable(st) && st.exec != []
    ensures !Execute(st, o).fault
    ensures st.exec[0].Receive? ==> st.exec[0].target.Some? && st.exec[0].target.value !in st.destroyed
    ensures forall i, j :: 0 <= i < j < |st.exec| && st.exec[j].Receive? && st.exec[i].Destroy? ==>
              st.exec[j].target != Some(st.exec[i].native)
  {
    ReachableInvariant(st);
    CommandLive(st);
    ExecuteKeeps(st, o);
    assert Holds(Commands, st, multiset{}, {});
    forall i, j | 0 <= i < j < |st.exec| && st.exec[j].Receive? && st.exec[i].Destroy?
      ensures st.exec[j].target != Some(st.exec[i].native)
    {
      assert UsableAt(j, st.exec, st.destroyed);
      assert st.exec[..j][i] == st.exec[i];
    }
  }

  // ----- The handshake -----------------------------------------------------------------

  /** The native session is asked for at most once, and was asked for exactly when READY was
      received and all channels have opened, each of them once. */
  lemma HandshakeGate(st: State, s: nat)
    requires Reachable(st) && s in st.sessions
    ensures
      var x := st.sessions[s];
      && x.openings == B(x.readyReceived && x.allOpened)
      && (x.allOpened <==> x.system.Some? && x.openedBy == x.members)
      && (x.allOpened ==> |x.members| == |x.channels| + 1)
      && (x.readyReceived || x.allOpened || x.native.Some? ==> x.authenticated)
      && (x.native.Some? || PendingCreates(st, s) > 0 ==> x.openings == 1)
      && !(x.native.Some? && PendingCreates(st, s) > 0)
  {
    ReachableInvariant(st);
    assert Holds(Handshake, st, multiset{}, {});
    assert Progresses(s, st.sessions, QueueRefs(st.tasks, st.exec));
    RefsPending(st, s);
    var x := st.sessions[s];
    SubsetSize(x.openedBy, x.members);
    if x.allOpened && x.openedBy != x.members {
      SubsetSize(x.openedBy, x.members - {var c :| c in x.members && c !in x.openedBy; c});
    }
  }

  /** The step that asks for the native session is the step that completes the handshake. */
  lemma OpensAtTheGate(st: State, step: Step, s: nat)
    requires Reachable(st) && Enabled(st, step) && !Hazard(st, step)
    requires s in st.sessions && s in Next(st, step).sessions
    ensures
      var x, y := st.sessions[s], Next(st, step).sessions[s];
      y.openings == x.openings + 1
      <==> y.readyReceived && y.allOpened && !(x.readyReceived && x.allOpened)
  {
    ReachableInvariant(st);
    NextKeeps(st, step);
    assert Holds(Handshake, st, multiset{}, {}) && Holds(Handshake, Next(st, step), multiset{}, {});
    assert Progresses(s, st.sessions, QueueRefs(st.tasks, st.exec));
    assert Progresses(s, Next(st, step).sessions, QueueRefs(Next(st, step).tasks, Next(st, step).exec));
  }

  /** One authentication result; a rejected session is closed to every further message. */
  lemma OneAuthentication(st: State, s: nat, raw: seq<char>, o: Outcome)
    requires Reachable(st) && s in st.sessions
    ensures
      var x := st.sessions[s];
      && x.authResults <= 1
      && (x.authResults == 1 && !x.authenticated ==>
            !x.active && WsEvent(st, s, Message(raw), o) == st && x.channels == [] && x.system.None?)
      && (x.authResults == 0 ==> x.channels == [] && x.system.None? && !x.readyReceived && x.openings == 0)
  {
    ReachableInvariant(st);
    SessionFacts(st, s, multiset{}, {});
  }

  // ----- The receive gate --------------------------------------------------------------

  /** A channel that lets messages through belongs to an active session that holds its native
      session; a closed session lets none through. */
  lemma ReceiveGate(st: State, c: nat)
    requires Reachable(st) && c in st.channels && Dc(c) in st.rtc && DcMessage(st, c) != st
    ensures
      var x := st.channels[c];
      && x.session in st.sessions && st.sessions[x.session].active && st.sessions[x.session].native.Some?
      && st.sessions[x.session].openings == 1
      && x.index < |st.sessions[x.session].channels| && st.sessions[x.session].channels[x.index] == Some(c)
  {
    ReachableInvariant(st);
    ChannelFacts(st, c, multiset{}, {});
    SessionFacts(st, st.channels[c].session, multiset{}, {});
  }

  // ----- Events ------------------------------------------------------------------------

  /** No event follows the closed event of its object, and none is left once it was handled. */
  lemma ClosedIsLast(st: State, x: Rtc)
    requires Reachable(st)
    ensures forall i, j :: 0 <= i < j < |st.tasks| && st.tasks[i] == Event(x, Closed) && st.tasks[j].Event? ==>
              st.tasks[j].source != x
    ensures x !in st.rtc ==> forall what :: Event(x, what) !in st.tasks && !Enabled(st, Post(x, what))
    ensures x in st.rtc && !st.rtc[x] ==>
              Event(x, Closed) in st.tasks && forall what :: !Enabled(st, Post(x, what))
    ensures x in st.rtc ==> Live(st.sockets, st.sessions, st.channels, RtcRef(x))
  {
    ReachableInvariant(st);
    Read(st, multiset{}, {});
    forall i, j | 0 <= i < j < |st.tasks| && st.tasks[i] == Event(x, Closed) && st.tasks[j].Event?
      ensures st.tasks[j].source != x
    {
      assert NoneAfterClosed(j, st.tasks, st.rtc);
      assert st.tasks[..j][i] == st.tasks[i];
    }
    assert ClosedPosted(x, st.tasks, st.rtc);
    if x !in st.rtc { NoEventOf(x, st.tasks, st.rtc); }
    if x in st.rtc { assert Live(st.sockets, st.sessions, st.channels, RtcRef(x)); }
  }

  /** A client task finds its socket, and creates no session once the socket is closed. */
  lemma ClientFindsSocket(st: State, k: nat, o: Outcome)
    requires Reachable(st) && st.tasks != [] && st.tasks[0] == Event(Wss(k), Client)
    ensures k in st.sockets
    ensures !st.sockets[k].active ==> Loop(st, o) == st.(tasks := st.tasks[1..])
  {
    ReachableInvariant(st);
    PlainTaken(st);
    assert RtcRef(Wss(k)) == SocketRef(k);
    assert Holds(Lists, st, multiset{}, {});
    assert ListSound(k, st.sockets, st.sessions, {});
  }

  // ----- The gates by events -----------------------------------------------------------

  /** The data channels of a session whose closed event has not been handled. */
  ghost function OpenData(st: State, s: nat): set<nat> {
    set c | c in st.channels && st.channels[c].session == s && st.channels[c].index != SYSTEM_INDEX && Dc(c) in st.rtc
  }

  function FilledSlots(slots: seq<Option<nat>>): set<nat> {
    set i: nat | i < |slots| && slots[i].Some?
  }

  lemma {:induction false} FilledSize(slots: seq<Option<nat>>)
    ensures |FilledSlots(slots)| <= |slots|
    ensures |FilledSlots(slots)| == |slots| <==> forall i :: 0 <= i < |slots| ==> slots[i].Some?
  {
    if slots != [] {
      var n := |slots| - 1;
      FilledSize(slots[..n]);
      assert FilledSlots(slots) == FilledSlots(slots[..n]) + if slots[n].Some? then {n} else {};
      assert forall i :: 0 <= i < n ==> slots[..n][i] == slots[i];
    }
  }

  /** An open data channel is the channel in the slot of its index. */
  lemma OpenDataSlots(st: State, s: nat)
    requires Invariant(st) && s in st.sessions
    ensures forall i :: i in FilledSlots(st.sessions[s].channels) ==>
              && st.sessions[s].channels[i].value in OpenData(st, s)
              && st.channels[st.sessions[s].channels[i].value].index == i
    ensures forall c :: c in OpenData(st, s) ==>
              st.channels[c].index in FilledSlots(st.sessions[s].channels)
              && st.sessions[s].channels[st.channels[c].index] == Some(c)
  {
    Read(st, multiset{}, {});
    assert SlotsFilled(s, st.sessions, st.channels, st.rtc);
    forall c | c in OpenData(st, s)
      ensures st.channels[c].index in FilledSlots(st.sessions[s].channels)
      ensures st.sessions[s].channels[st.channels[c].index] == Some(c)
    {
      assert InSlot(c, st.sessions, st.channels, st.rtc);
    }
  }

  /** As many data channels are open as slots are filled. */
  lemma {:induction false} SlotsMatch(a: set<nat>, slots: seq<Option<nat>>, b: set<nat>)
    requires forall i: nat :: i in a <==> i < |slots| && slots[i].Some? && slots[i].value in b
    requires forall c :: c in b ==> exists i :: i in a && slots[i] == Some(c)
    requires forall i: nat, j: nat :: i in a && j in a && slots[i] == slots[j] ==> i == j
    ensures |a| == |b|
    decreases a
  {
    if a == {} {
      assert b == {};
    } else {
      var i :| i in a;
      var c := slots[i].value;
      forall d | d in b - {c} ensures exists j :: j in a - {i} && slots[j] == Some(d) {
        var j :| j in a && slots[j] == Some(d);
        assert j in a - {i};
      }
      SlotsMatch(a - {i}, slots, b - {c});
    }
  }

  lemma OpenDataSize(st: State, s: nat)
    requires Invariant(st) && s in st.sessions
    ensures |OpenData(st, s)| == |FilledSlots(st.sessions[s].channels)|
  {
    OpenDataSlots(st, s);
    forall c | c in OpenData(st, s)
      ensures exists i :: i in FilledSlots(st.sessions[s].channels) && st.sessions[s].channels[i] == Some(c)
    {
      assert st.channels[c].index in FilledSlots(st.sessions[s].channels);
    }
    forall i: nat
      ensures i in FilledSlots(st.sessions[s].channels)
              <==> i < |st.sessions[s].channels| && st.sessions[s].channels[i].Some?
                   && st.sessions[s].channels[i].value in OpenData(st, s)
    {
      if i in FilledSlots(st.sessions[s].channels) {
        assert st.sessions[s].channels[i].value in OpenData(st, s);
      }
    }
    SlotsMatch(FilledSlots(st.sessions[s].channels), st.sessions[s].channels, OpenData(st, s));
  }

  /** Handing over a native session faults if and only if the closed event of a data channel of
      the session was handled before, or its system channel was released. */
  lemma GatesByEvents(st: State, s: nat, n: nat, o: Outcome)
    requires Reachable(st) && st.tasks != [] && st.tasks[0] == Task.Created(s, Some(n))
    ensures s in st.sessions && st.sessions[s].system.Some?
    ensures Loop(st, o).fault
            <==> |OpenData(st, s)| < |st.sessions[s].channels| || st.sessions[s].system.value !in st.channels
  {
    ReachableInvariant(st);
    StillWaiting(st, s, Some(n));
    LoopKeeps(st, o);
    OpenDataSize(st, s);
    FilledSize(st.sessions[s].channels);
  }

  // ----- Lists and timers --------------------------------------------------------------

  /** A session is in the list of its socket, at the node of its entry, exactly while it is
      active; a closed socket has no active session. */
  lemma ListedWhileActive(st: State)
    requires Reachable(st)
    ensures forall s :: s in st.sessions ==>
              var x := st.sessions[s];
              && x.socket in st.sockets
              && (x.active <==> x.entry.Some?)
              && (forall node :: node in st.sockets[x.socket].sessions && node.session == s ==>
                    x.entry == Some(node.entry))
              && (x.active ==> Node(x.entry.value, s) in st.sockets[x.socket].sessions && st.sockets[x.socket].active)
    ensures forall k, node :: k in st.sockets && node in st.sockets[k].sessions ==>
              node.session in st.sessions && st.sessions[node.session].socket == k && st.sessions[node.session].active
    ensures forall k :: k in st.sockets ==> Distinct(st.sockets[k].sessions)
  {
    ReachableInvariant(st);
    Read(st, multiset{}, {});
    NoDanglingParents(st);
    var busy: set<Ref> := {};
    forall k | k in st.sockets
      ensures Distinct(st.sockets[k].sessions)
      ensures forall node :: node in st.sockets[k].sessions ==>
                && node.session in st.sessions && st.sessions[node.session].socket == k
                && st.sessions[node.session].entry == Some(node.entry)
      ensures !st.sockets[k].active ==> st.sockets[k].sessions == []
    {
      assert ListSound(k, st.sockets, st.sessions, busy);
    }
    forall s | s in st.sessions
      ensures st.sessions[s].active <==> st.sessions[s].entry.Some?
      ensures st.sessions[s].active ==>
                Node(st.sessions[s].entry.value, s) in st.sockets[st.sessions[s].socket].sessions
    {
      assert IsListed(s, st.sockets, st.sessions, busy);
    }
  }

  /** A session has at most one timeout and one ping timer, and points to them while they are
      live; a timeout timer never outlives its session. */
  lemma TimerOwnership(st: State)
    requires Reachable(st)
    ensures forall t, u :: t in st.timers && u in st.timers && st.timers[t].Timeout? && st.timers[u] == st.timers[t] ==>
              t == u
    ensures forall t :: t in st.timers && st.timers[t].Timeout? ==>
              st.timers[t].s in st.sessions && st.sessions[st.timers[t].s].timeout == Some(t)
    ensures forall t :: t in st.timers && st.timers[t].Ping? && st.timers[t].s in st.sessions ==>
              st.sessions[st.timers[t].s].ping == Some(t)
    ensures forall s :: s in st.sessions ==>
              && (st.sessions[s].timeout.Some? <==> exists t | t in st.timers :: st.timers[t] == Timeout(s))
              && (st.sessions[s].ping.Some? <==> exists t | t in st.timers :: st.timers[t] == Ping(s))
  {
    ReachableInvariant(st);
    Read(st, multiset{}, {});
    forall t | t in st.timers
      ensures st.timers[t].Timeout? ==> st.timers[t].s in st.sessions && st.sessions[st.timers[t].s].timeout == Some(t)
      ensures st.timers[t].Ping? && st.timers[t].s in st.sessions ==> st.sessions[st.timers[t].s].ping == Some(t)
    {
      assert TimerOwned(t, st.sessions, st.timers);
    }
    forall s | s in st.sessions ensures TimersLive(s, st.sessions, st.timers) {}
  }
}
