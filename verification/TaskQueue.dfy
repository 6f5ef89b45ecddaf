/** The task queue between the threads and the event loop: a submitter takes a task from the
    pool, writes into it, appends it to the list and then signals; signals coalesce; the loop pops
    until the list is empty. A popped task goes back to the pool before its callback reads the
    arguments in it. */
module TaskQueue {
  import opened Wrappers

  /** The number of arguments a task has room for. */
  const MAX_ARGS: nat := 10

  datatype Work = Work(callback: nat, args: seq<int>)

  /** A task in memory: the room for arguments is always there, and the rest of it keeps what was
      written last. */
  datatype Cell = Cell(callback: nat, argc: nat, args: seq<int>)

  const Blank: Cell := Cell(0, 0, [0, 0, 0, 0, 0, 0, 0, 0, 0, 0])

  /** How far a thread has come with a submission. */
  datatype Phase =
    | Idle
    | Checked(work: Work)               // the loop was running
    | Acquired(slot: nat, work: Work)   // a task was taken from the pool
    | Writing(slot: nat, work: Work, written: nat) // its callback and count, and so many arguments
    | Pushed                            // in the list, not yet signalled

  datatype Mode =
    | Waiting
    | Draining
    | Calling(slot: nat, callback: nat, argc: nat, got: seq<int>) // the task is back in the pool
    | Halted

  datatype Queue = Queue(
    threads: map<nat, Phase>,
    memory: map<nat, Cell>,   // the tasks ever allocated
    free: set<nat>,           // those in the pool
    list: seq<nat>,
    signalled: bool,
    mode: Mode,
    running: bool,
    stopping: bool,
    // Bookkeeping, read by no step: the work accepted and the work executed.
    accepted: seq<Work>,
    executed: seq<Work>)

  /** Whether the pool clears a task that it hands out is left open. */
  datatype Action =
    | Check(t: nat, work: Work)
    | Acquire(t: nat, slot: nat, cleared: bool)
    | Enter(t: nat)
    | Write(t: nat)
    | Push(t: nat)
    | Signal(t: nat)
    | Wake
    | Pop
    | Read
    | Call
    | Settle
    | Shutdown
    | Halt

  const Empty: Queue := Queue(map[], map[], {}, [], false, Waiting, true, false, [], [])

  function PhaseOf(q: Queue, t: nat): Phase {
    if t in q.threads then q.threads[t] else Idle
  }

  predicate Enabled(q: Queue, a: Action) {
    match a
    case Check(t, _) => PhaseOf(q, t).Idle?
    case Acquire(t, slot, _) => PhaseOf(q, t).Checked? && (slot in q.free || slot !in q.memory)
    case Enter(t) => PhaseOf(q, t).Acquired? && PhaseOf(q, t).slot in q.memory
    case Write(t) =>
      && PhaseOf(q, t).Writing? && PhaseOf(q, t).slot in q.memory
      && PhaseOf(q, t).written < |PhaseOf(q, t).work.args| && PhaseOf(q, t).written < MAX_ARGS
      && |q.memory[PhaseOf(q, t).slot].args| == MAX_ARGS
    case Push(t) => PhaseOf(q, t).Writing? && PhaseOf(q, t).written == |PhaseOf(q, t).work.args|
    case Signal(t) => PhaseOf(q, t).Pushed?
    case Wake => q.mode.Waiting? && q.signalled
    case Pop => q.mode.Draining? && q.list != [] && q.list[0] in q.memory
    case Read =>
      && q.mode.Calling? && q.mode.slot in q.memory
      && |q.mode.got| < q.mode.argc && |q.mode.got| < |q.memory[q.mode.slot].args|
    case Call => q.mode.Calling? && |q.mode.got| == q.mode.argc
    case Settle => q.mode.Draining? && q.list == []
    case Shutdown => true
    case Halt => q.mode.Waiting? && q.stopping
  }

  /** A thread that finds the loop stopped, or has too many arguments, gives up. */
  function Step(q: Queue, a: Action): Queue
    requires Enabled(q, a)
  {
    match a
    case Check(t, work) =>
      if q.running && |work.args| <= MAX_ARGS then q.(threads := q.threads[t := Checked(work)]) else q
    case Acquire(t, slot, cleared) =>
      q.(free := q.free - {slot}, threads := q.threads[t := Acquired(slot, PhaseOf(q, t).work)],
         memory := if cleared || slot !in q.memory then q.memory[slot := Blank] else q.memory)
    case Enter(t) =>
      var Acquired(slot, work) := PhaseOf(q, t);
      q.(memory := q.memory[slot := q.memory[slot].(callback := work.callback, argc := |work.args|)],
         threads := q.threads[t := Writing(slot, work, 0)])
    case Write(t) =>
      var Writing(slot, work, n) := PhaseOf(q, t);
      q.(memory := q.memory[slot := q.memory[slot].(args := q.memory[slot].args[n := work.args[n]])],
         threads := q.threads[t := Writing(slot, work, n + 1)])
    case Push(t) =>
      var Writing(slot, work, _) := PhaseOf(q, t);
      q.(list := q.list + [slot], accepted := q.accepted + [work], threads := q.threads[t := Pushed])
    case Signal(t) => q.(signalled := true, threads := q.threads[t := Idle])
    case Wake => q.(signalled := false, mode := Draining)
    case Pop =>
      var slot := q.list[0];
      q.(list := q.list[1..], free := q.free + {slot},
         mode := Calling(slot, q.memory[slot].callback, q.memory[slot].argc, []))
    case Read => q.(mode := q.mode.(got := q.mode.got + [q.memory[q.mode.slot].args[|q.mode.got|]]))
    case Call => q.(executed := q.executed + [Work(q.mode.callback, q.mode.got)], mode := Draining)
    case Settle => q.(mode := Waiting)
    case Shutdown => q.(running := false, stopping := true)
    case Halt => q.(mode := Halted)
  }

  // ----- The invariant -----------------------------------------------------------------

  /** The work popped so far, executed or being called. */
  function Popped(q: Queue): nat {
    |q.executed| + if q.mode.Calling? then 1 else 0
  }

  predicate Owns(q: Queue, t: nat, slot: nat) {
    (PhaseOf(q, t).Acquired? || PhaseOf(q, t).Writing?) && PhaseOf(q, t).slot == slot
  }

  /** The first n arguments of the work are in the cell, behind its callback and count. */
  predicate Holds(cell: Cell, work: Work, n: nat) {
    && cell.callback == work.callback && cell.argc == |work.args| <= MAX_ARGS && |cell.args| == MAX_ARGS
    && n <= |work.args| && forall i :: 0 <= i < n ==> cell.args[i] == work.args[i]
  }

  /** A task is in the pool, in the list, or owned by one thread. */
  ghost predicate Apart(q: Queue) {
    && (forall i :: 0 <= i < |q.list| ==> q.list[i] in q.memory && q.list[i] !in q.free)
    && (forall i, j :: 0 <= i < j < |q.list| ==> q.list[i] != q.list[j])
    && (forall t, slot :: Owns(q, t, slot) ==> slot in q.memory && slot !in q.free && slot !in q.list)
    && (forall t, u, slot :: Owns(q, t, slot) && Owns(q, u, slot) ==> t == u)
  }

  /** What a thread has written so far. */
  ghost predicate Written(q: Queue, t: nat) {
    var phase := PhaseOf(q, t);
    && (phase.Checked? || phase.Acquired? ==> |phase.work.args| <= MAX_ARGS)
    && (phase.Writing? ==> phase.slot in q.memory && Holds(q.memory[phase.slot], phase.work, phase.written))
  }

  ghost predicate AllWritten(q: Queue) {
    && (forall slot {:trigger q.memory[slot]} :: slot in q.memory ==> |q.memory[slot].args| == MAX_ARGS)
    && (forall t {:trigger Written(q, t)} :: Written(q, t))
  }

  /** The list holds the work accepted and not yet popped, in order, and callbacks ran in the
      order of acceptance, each with as many arguments as were submitted. */
  ghost predicate InOrder(q: Queue) {
    && |q.accepted| == Popped(q) + |q.list|
    && (forall i :: 0 <= i < |q.list| ==>
          q.list[i] in q.memory
          && Holds(q.memory[q.list[i]], q.accepted[Popped(q) + i], |q.accepted[Popped(q) + i].args|))
    && (forall i :: 0 <= i < |q.executed| ==> SameCall(q.executed[i], q.accepted[i]))
    && (q.mode.Calling? ==>
          && q.mode.slot in q.memory && q.mode.callback == q.accepted[|q.executed|].callback
          && |q.mode.got| <= q.mode.argc == |q.accepted[|q.executed|].args| <= MAX_ARGS)
  }

  predicate SameCall(call: Work, work: Work) {
    call.callback == work.callback && |call.args| == |work.args|
  }

  /** Whenever the list is not empty, a thread has yet to signal, a signal is pending, or the
      loop is draining. */
  ghost predicate NoLostWakeup(q: Queue) {
    q.list != [] ==> q.signalled || q.mode.Draining? || q.mode.Calling? || exists t :: PhaseOf(q, t).Pushed?
  }

  ghost predicate Inv(q: Queue) {
    Apart(q) && AllWritten(q) && InOrder(q) && NoLostWakeup(q)
  }

  lemma InitiallyInv()
    ensures Inv(Empty)
  {
  }

  lemma ApartKept(q: Queue, a: Action)
    requires Inv(q) && Enabled(q, a)
    ensures Apart(Step(q, a))
  {
    var q' := Step(q, a);
    if a.Push? { assert Owns(q, a.t, PhaseOf(q, a.t).slot); }
    forall t, slot | Owns(q', t, slot)
      ensures Owns(q, t, slot) || (a.Acquire? && a.t == t && a.slot == slot)
    {
    }
  }

  lemma WrittenKept(q: Queue, a: Action)
    requires Inv(q) && Enabled(q, a)
    ensures AllWritten(Step(q, a))
  {
    var q' := Step(q, a);
    forall t: nat ensures Written(q', t) {
      assert Written(q, t);
      if PhaseOf(q, t).Writing? { assert Owns(q, t, PhaseOf(q, t).slot); }
      if a.Enter? || a.Write? { assert Owns(q, a.t, PhaseOf(q, a.t).slot); }
    }
  }

  lemma InOrderKept(q: Queue, a: Action)
    requires Inv(q) && Enabled(q, a)
    ensures InOrder(Step(q, a))
  {
    match a
    case Acquire(t, slot, cleared) => AcquireInOrder(q, t, slot, cleared);
    case Enter(t) => EnterInOrder(q, t);
    case Write(t) => WriteInOrder(q, t);
    case Push(t) => PushInOrder(q, t);
    case Pop => PopInOrder(q);
    case Read => ReadInOrder(q);
    case Call => CallInOrder(q);
    case _ =>
  }

  lemma AcquireInOrder(q: Queue, t: nat, slot: nat, cleared: bool)
    requires Inv(q) && Enabled(q, Acquire(t, slot, cleared))
    ensures InOrder(Step(q, Acquire(t, slot, cleared)))
  {
  }

  lemma EnterInOrder(q: Queue, t: nat)
    requires Inv(q) && Enabled(q, Enter(t))
    ensures InOrder(Step(q, Enter(t)))
  {
    assert Owns(q, t, PhaseOf(q, t).slot);
  }

  lemma WriteInOrder(q: Queue, t: nat)
    requires Inv(q) && Enabled(q, Write(t))
    ensures InOrder(Step(q, Write(t)))
  {
    assert Owns(q, t, PhaseOf(q, t).slot);
  }

  lemma PushInOrder(q: Queue, t: nat)
    requires Inv(q) && Enabled(q, Push(t))
    ensures InOrder(Step(q, Push(t)))
  {
    assert Owns(q, t, PhaseOf(q, t).slot);
    assert Written(q, t);
  }

  lemma PopInOrder(q: Queue)
    requires Inv(q) && Enabled(q, Pop)
    ensures InOrder(Step(q, Pop))
  {
    assert Holds(q.memory[q.list[0]], q.accepted[Popped(q) + 0], |q.accepted[Popped(q) + 0].args|);
  }

  lemma ReadInOrder(q: Queue)
    requires Inv(q) && Enabled(q, Read)
    ensures InOrder(Step(q, Read))
  {
  }

  lemma CallInOrder(q: Queue)
    requires Inv(q) && Enabled(q, Call)
    ensures InOrder(Step(q, Call))
  {
  }

  lemma WakeupKept(q: Queue, a: Action)
    requires Inv(q) && Enabled(q, a)
    ensures NoLostWakeup(Step(q, a))
  {
    var q' := Step(q, a);
    if t :| PhaseOf(q, t).Pushed? && a != Signal(t) {
      assert PhaseOf(q', t).Pushed?;
    }
    if a.Push? { assert PhaseOf(q', a.t).Pushed?; }
  }

  lemma StepKeeps(q: Queue, a: Action)
    requires Inv(q) && Enabled(q, a)
    ensures Inv(Step(q, a))
  {
    ApartKept(q, a);
    WrittenKept(q, a);
    InOrderKept(q, a);
    WakeupKept(q, a);
  }

  // ----- Runs --------------------------------------------------------------------------

  /** An action that is not enabled does nothing. */
  function After(q: Queue, a: Action): Queue {
    if Enabled(q, a) then Step(q, a) else q
  }

  function RunFrom(q: Queue, actions: seq<Action>): Queue {
    if actions == [] then q else After(RunFrom(q, actions[..|actions| - 1]), actions[|actions| - 1])
  }

  function Run(actions: seq<Action>): Queue {
    RunFrom(Empty, actions)
  }

  lemma RunOn(q: Queue, actions: seq<Action>, a: Action)
    ensures RunFrom(q, actions + [a]) == After(RunFrom(q, actions), a)
  {
    assert (actions + [a])[..|actions|] == actions;
  }

  lemma RunNextOf(q: Queue, log: seq<Action>, actions: seq<Action>, i: nat)
    requires i < |actions|
    ensures RunFrom(q, log + actions[..i + 1]) == After(RunFrom(q, log + actions[..i]), actions[i])
  {
    assert log + actions[..i + 1] == log + actions[..i] + [actions[i]];
    RunOn(q, log + actions[..i], actions[i]);
  }

  lemma {:induction false} RunInv(actions: seq<Action>)
    ensures Inv(Run(actions))
  {
    if actions == [] {
      InitiallyInv();
    } else {
      var n := |actions| - 1;
      RunInv(actions[..n]);
      if Enabled(Run(actions[..n]), actions[n]) { StepKeeps(Run(actions[..n]), actions[n]); }
    }
  }

  // ----- The arguments of a callback ---------------------------------------------------

  /** For each argument of a task, what it was overwritten with, if it was. */
  type Overwriting = o: seq<Option<int>> | |o| == MAX_ARGS witness Untouched

  const Untouched: seq<Option<int>> := [None, None, None, None, None, None, None, None, None, None]
  const Cleared: seq<Option<int>> :=
    [Some(0), Some(0), Some(0), Some(0), Some(0), Some(0), Some(0), Some(0), Some(0), Some(0)]

  /** The arguments of the task being called that were overwritten since it was popped. */
  function Overwritten(actions: seq<Action>): Overwriting {
    if actions == [] then Untouched
    else
      var q, a := Run(actions[..|actions| - 1]), actions[|actions| - 1];
      if Enabled(q, a) then Overwrites(q, a, Overwritten(actions[..|actions| - 1]))
      else Overwritten(actions[..|actions| - 1])
  }

  function Overwrites(q: Queue, a: Action, before: Overwriting): Overwriting
    requires Enabled(q, a)
  {
    if a.Pop? then Untouched
    else if a.Acquire? && a.cleared && q.mode.Calling? && a.slot == q.mode.slot then Cleared
    else if a.Write? && q.mode.Calling? && PhaseOf(q, a.t).slot == q.mode.slot then
      before[PhaseOf(q, a.t).written := Some(PhaseOf(q, a.t).work.args[PhaseOf(q, a.t).written])]
    else before
  }

  /** The arguments of a callback as far as they are in memory: those submitted, but for the
      overwritten ones. */
  ghost predicate ReadsLast(q: Queue, overwritten: Overwriting) {
    q.mode.Calling? ==>
      && q.mode.slot in q.memory && |q.memory[q.mode.slot].args| == MAX_ARGS && |q.executed| < |q.accepted|
      && q.mode.argc == |q.accepted[|q.executed|].args| <= MAX_ARGS
      && forall i: nat {:trigger q.memory[q.mode.slot].args[i]} :: i < q.mode.argc ==>
           q.memory[q.mode.slot].args[i]
           == if overwritten[i].Some? then overwritten[i].value else q.accepted[|q.executed|].args[i]
  }

  lemma OneReadsLast(q: Queue, a: Action, overwritten: Overwriting)
    requires Inv(q) && Enabled(q, a) && ReadsLast(q, overwritten)
    ensures ReadsLast(Step(q, a), Overwrites(q, a, overwritten))
  {
    match a
    case Pop => PopReadsLast(q);
    case Enter(t) => assert Owns(q, t, PhaseOf(q, t).slot);
    case Push(t) => assert q.accepted <= Step(q, a).accepted;
    case _ =>
  }

  lemma PopReadsLast(q: Queue)
    requires Inv(q) && Enabled(q, Pop)
    ensures ReadsLast(Step(q, Pop), Untouched)
  {
    assert Holds(q.memory[q.list[0]], q.accepted[Popped(q) + 0], |q.accepted[Popped(q) + 0].args|);
  }

  /** A callback reads what was written last. */
  lemma {:induction false} ReadsLastWritten(actions: seq<Action>)
    ensures ReadsLast(Run(actions), Overwritten(actions))
  {
    if actions != [] {
      var before, a := actions[..|actions| - 1], actions[|actions| - 1];
      ReadsLastWritten(before);
      RunInv(before);
      if Enabled(Run(before), a) { OneReadsLast(Run(before), a, Overwritten(before)); }
    }
  }

  /** The callback is about to read an argument that was overwritten, since its task was popped,
      with another than was submitted. */
  ghost predicate ReadGarbled(before: seq<Action>) {
    var q := Run(before);
    && q.mode.Calling? && |q.executed| < |q.accepted| && |q.mode.got| < |q.accepted[|q.executed|].args|
    && |q.mode.got| < MAX_ARGS && Overwritten(before)[|q.mode.got|].Some?
    && Overwritten(before)[|q.mode.got|].value != q.accepted[|q.executed|].args[|q.mode.got|]
  }

  /** Some callback has read such an argument. */
  ghost predicate Garbled(actions: seq<Action>) {
    actions != [] &&
    var before, a := actions[..|actions| - 1], actions[|actions| - 1];
    Garbled(before) || (a.Read? && Enabled(Run(before), a) && ReadGarbled(before))
  }

  /** Everything that callbacks have read so far is what was submitted to them. */
  ghost predicate ReadsRight(q: Queue) {
    && q.executed <= q.accepted
    && (q.mode.Calling? ==> |q.executed| < |q.accepted| && q.mode.got <= q.accepted[|q.executed|].args)
  }

  lemma PrefixGrows<T>(a: seq<T>, b: seq<T>, x: T)
    requires |a| < |b|
    ensures a + [x] <= b <==> a <= b && x == b[|a|]
  {
    if a + [x] <= b {
      assert b[..|a|] == (a + [x])[..|a|] == a;
      assert (a + [x])[|a|] == x;
    }
    if a <= b && x == b[|a|] { assert b[..|a| + 1] == b[..|a|] + [b[|a|]]; }
  }

  lemma ReadRight(before: seq<Action>)
    requires Enabled(Run(before), Read) && Inv(Run(before))
    ensures ReadsRight(Step(Run(before), Read)) <==> ReadsRight(Run(before)) && !ReadGarbled(before)
  {
    var q := Run(before);
    ReadsLastWritten(before);
    PrefixGrows(q.mode.got, q.accepted[|q.executed|].args, q.memory[q.mode.slot].args[|q.mode.got|]);
  }

  lemma CallRight(q: Queue)
    requires Enabled(q, Call) && Inv(q)
    ensures ReadsRight(Step(q, Call)) <==> ReadsRight(q)
  {
    var work := q.accepted[|q.executed|];
    PrefixGrows(q.executed, q.accepted, Work(q.mode.callback, q.mode.got));
    assert work == Work(work.callback, work.args);
    if q.mode.got <= work.args { assert q.mode.got == work.args; }
  }

  lemma OthersRight(q: Queue, a: Action)
    requires Inv(q) && Enabled(q, a) && !a.Call? && !a.Read?
    ensures ReadsRight(Step(q, a)) <==> ReadsRight(q)
  {
    var q' := Step(q, a);
    assert q'.executed == q.executed && q.accepted <= q'.accepted && |q.executed| <= |q.accepted|;
    if a.Pop? { assert q'.mode.got == []; }
  }

  lemma {:induction false} ReadsRightIs(actions: seq<Action>)
    ensures ReadsRight(Run(actions)) <==> !Garbled(actions)
  {
    if actions != [] {
      var before, a := actions[..|actions| - 1], actions[|actions| - 1];
      ReadsRightIs(before);
      RunInv(before);
      if Enabled(Run(before), a) {
        match a
        case Read => ReadRight(before);
        case Call => CallRight(Run(before));
        case _ => OthersRight(Run(before), a);
      }
    }
  }

  /** Callbacks run once each and in the order of acceptance, across a shutdown too, each with as
      many arguments as it was submitted with; and with these very arguments if and only if no
      callback reads one that was overwritten with another since its task was popped. */
  lemma ExecutedPrefix(actions: seq<Action>)
    ensures
      var q := Run(actions);
      && |q.executed| <= |q.accepted|
      && (forall i :: 0 <= i < |q.executed| ==> SameCall(q.executed[i], q.accepted[i]))
      && (ReadsRight(q) <==> !Garbled(actions))
      && (!q.mode.Calling? ==> (q.executed <= q.accepted <==> !Garbled(actions)))
  {
    RunInv(actions);
    ReadsRightIs(actions);
  }

  /** When no submission is under way and the loop has nothing to do, everything accepted has
      been executed. */
  lemma NothingForgotten(actions: seq<Action>)
    requires
      var q := Run(actions);
      q.mode.Waiting? && !Enabled(q, Wake) && forall t :: PhaseOf(q, t).Idle?
    ensures
      var q := Run(actions);
      q.list == [] && |q.executed| == |q.accepted| && (q.executed == q.accepted <==> !Garbled(actions))
  {
    RunInv(actions);
    ReadsRightIs(actions);
    IdleDone(Run(actions));
  }

  lemma IdleDone(q: Queue)
    requires Inv(q) && q.mode.Waiting? && !Enabled(q, Wake) && forall t :: PhaseOf(q, t).Idle?
    ensures q.list == [] && |q.executed| == |q.accepted|
    ensures q.executed == q.accepted <==> ReadsRight(q)
  {
  }

  /** Until it is halted, the loop can take a step whenever the list is not empty and no thread
      is about to signal. */
  lemma NeverStuck(actions: seq<Action>)
    requires
      var q := Run(actions);
      q.list != [] && !q.mode.Halted? && forall t :: !PhaseOf(q, t).Pushed?
    ensures
      var q := Run(actions);
      Enabled(q, Wake) || Enabled(q, Pop) || Enabled(q, Read) || Enabled(q, Call)
  {
    RunInv(actions);
  }

  /** Once the loop has halted, nothing is executed any more, whatever is still accepted. */
  lemma {:induction false} HaltedForGood(before: seq<Action>, after: seq<Action>)
    requires Run(before).mode.Halted?
    ensures Run(before + after).mode.Halted? && Run(before + after).executed == Run(before).executed
    decreases |after|
  {
    if after == [] {
      assert before + after == before;
    } else {
      var n := |after| - 1;
      HaltedForGood(before, after[..n]);
      assert before + after == before + after[..n] + [after[n]];
      RunOn(Empty, before + after[..n], after[n]);
      HaltStays(Run(before + after[..n]), after[n]);
    }
  }

  lemma HaltStays(q: Queue, a: Action)
    requires q.mode.Halted?
    ensures After(q, a).mode.Halted? && After(q, a).executed == q.executed
  {
  }

  /** The loop stops taking work, and may halt, by a shutdown and by nothing else. */
  lemma {:induction false} StopsByShutdown(actions: seq<Action>)
    ensures
      var q := Run(actions);
      && (q.stopping <==> Shutdown in actions) && (q.running <==> Shutdown !in actions)
      && (q.mode.Halted? ==> Shutdown in actions)
  {
    if actions != [] {
      var before, a := actions[..|actions| - 1], actions[|actions| - 1];
      StopsByShutdown(before);
      assert actions == before + [a];
      ShutdownOnly(Run(before), a);
    }
  }

  lemma ShutdownOnly(q: Queue, a: Action)
    ensures After(q, a).stopping <==> q.stopping || a.Shutdown?
    ensures After(q, a).running <==> q.running && !a.Shutdown?
    ensures After(q, a).mode.Halted? ==> q.mode.Halted? || q.stopping
  {
  }

  /** Unless a submission is under way, nothing is accepted once the loop was shut down. */
  lemma {:induction false} RefusedAfterShutdown(before: seq<Action>, after: seq<Action>)
    requires Shutdown in before && forall t :: PhaseOf(Run(before), t).Idle?
    ensures Run(before + after).accepted == Run(before).accepted
    ensures forall t :: PhaseOf(Run(before + after), t).Idle?
    decreases |after|
  {
    if after == [] {
      assert before + after == before;
    } else {
      var n := |after| - 1;
      RefusedAfterShutdown(before, after[..n]);
      StopsByShutdown(before + after[..n]);
      assert before + after == before + after[..n] + [after[n]];
      RunOn(Empty, before + after[..n], after[n]);
      NoneStarted(Run(before + after[..n]), after[n]);
    }
  }

  lemma NoneStarted(q: Queue, a: Action)
    requires !q.running && forall t :: PhaseOf(q, t).Idle?
    ensures After(q, a).accepted == q.accepted && forall t :: PhaseOf(After(q, a), t).Idle?
  {
    if a.Acquire? || a.Enter? || a.Write? || a.Push? || a.Signal? { assert PhaseOf(q, a.t).Idle?; }
    forall t: nat ensures PhaseOf(After(q, a), t) == PhaseOf(q, t) {}
  }

  // ----- The last submission -----------------------------------------------------------

  /** The positions, among the accepted, of the work that these threads submitted. */
  ghost function Positions(actions: seq<Action>, who: set<nat>): set<nat> {
    if actions == [] then {}
    else
      var before, a := actions[..|actions| - 1], actions[|actions| - 1];
      Positions(before, who)
      + if a.Push? && a.t in who && Enabled(Run(before), a) then {|Run(before).accepted|} else {}
  }

  lemma {:induction false} PositionsAccepted(actions: seq<Action>, who: set<nat>)
    ensures forall i :: i in Positions(actions, who) ==> i < |Run(actions).accepted|
  {
    if actions != [] {
      PositionsAccepted(actions[..|actions| - 1], who);
      AcceptsMore(Run(actions[..|actions| - 1]), actions[|actions| - 1]);
    }
  }

  lemma AcceptsMore(q: Queue, a: Action)
    ensures |After(q, a).accepted| == |q.accepted| + if a.Push? && Enabled(q, a) then 1 else 0
  {
  }

  lemma {:induction false} AcceptedGrows(before: seq<Action>, after: seq<Action>, who: set<nat>)
    ensures |Run(before).accepted| <= |Run(before + after).accepted|
    ensures forall i :: i in Positions(before + after, who) && i !in Positions(before, who) ==>
              i >= |Run(before).accepted|
    decreases |after|
  {
    if after == [] {
      assert before + after == before;
    } else {
      var n := |after| - 1;
      LastAction(before, after, who);
      AcceptedGrows(before, after[..n], who);
      AcceptsMore(Run(before + after[..n]), after[n]);
    }
  }

  ghost predicate AllIdle(q: Queue, who: set<nat>) {
    forall t :: t in who ==> PhaseOf(q, t).Idle?
  }

  ghost predicate NoneStarts(actions: seq<Action>, who: set<nat>) {
    forall a :: a in actions && a.Check? ==> a.t !in who
  }

  lemma IdleStays(q: Queue, a: Action, who: set<nat>)
    requires AllIdle(q, who) && (a.Check? ==> a.t !in who)
    ensures AllIdle(After(q, a), who) && (a.Push? && a.t in who ==> !Enabled(q, a))
  {
  }

  /** The last action of a run in two parts. */
  lemma LastAction(before: seq<Action>, after: seq<Action>, who: set<nat>)
    requires after != []
    ensures
      var n := |after| - 1;
      var q, a := Run(before + after[..n]), after[n];
      && Run(before + after) == After(q, a)
      && Positions(before + after, who)
         == Positions(before + after[..n], who)
            + if a.Push? && a.t in who && Enabled(q, a) then {|q.accepted|} else {}
  {
    var actions, n := before + after, |after| - 1;
    assert actions[..|actions| - 1] == before + after[..n] && actions[|actions| - 1] == after[n];
  }

  /** Threads that are idle and start no submission submit nothing. */
  lemma {:induction false} StayIdle(before: seq<Action>, after: seq<Action>, who: set<nat>)
    requires AllIdle(Run(before), who) && NoneStarts(after, who)
    ensures AllIdle(Run(before + after), who) && Positions(before + after, who) == Positions(before, who)
    decreases |after|
  {
    if after == [] {
      assert before + after == before;
    } else {
      var n := |after| - 1;
      LastAction(before, after, who);
      assert after[n] in after && forall a :: a in after[..n] ==> a in after;
      StayIdle(before, after[..n], who);
      IdleStays(Run(before + after[..n]), after[n], who);
    }
  }

  /** What a worker submits once the threads of a WSS are through with their submissions, and
      start no other, comes behind everything they submitted, and so is called after it. */
  lemma LastSubmission(before: seq<Action>, after: seq<Action>, wss: set<nat>, worker: nat)
    requires AllIdle(Run(before), wss) && NoneStarts(after, wss)
    ensures forall i, j ::
              && i in Positions(before + after, wss)
              && j in Positions(before + after, {worker}) && j !in Positions(before, {worker})
              ==> i < j
  {
    StayIdle(before, after, wss);
    PositionsAccepted(before, wss);
    AcceptedGrows(before, after, {worker});
  }

  // ----- A garbled run -----------------------------------------------------------------

  /** The memory of a task with these first two arguments. */
  function Pair(a: int, b: int): seq<int> {
    Blank.args[0 := a][1 := b]
  }

  /** A task with two arguments is submitted and popped. */
  function Submitted(callback: nat, a: int, b: int): seq<Action> {
    Wrote(callback, a, b) + [Push(0)] + [Signal(0)] + [Wake] + [Pop]
  }

  function Wrote(callback: nat, a: int, b: int): seq<Action> {
    [Check(0, Work(callback, [a, b]))] + [Acquire(0, 0, false)] + [Enter(0)] + [Write(0)] + [Write(0)]
  }

  lemma EnteredRun(callback: nat, a: int, b: int)
    ensures
      var work := Work(callback, [a, b]);
      Run([Check(0, work)] + [Acquire(0, 0, false)] + [Enter(0)])
      == Empty.(threads := map[0 := Writing(0, work, 0)], memory := map[0 := Blank.(callback := callback, argc := 2)])
  {
    var work := Work(callback, [a, b]);
    var q1 := Empty.(threads := map[0 := Checked(work)]);
    var q2 := q1.(threads := map[0 := Acquired(0, work)], memory := map[0 := Blank]);
    assert Run([]) == Empty && After(Empty, Check(0, work)) == q1;
    RunOn(Empty, [], Check(0, work));
    assert [] + [Check(0, work)] == [Check(0, work)];
    RunOn(Empty, [Check(0, work)], Acquire(0, 0, false));
    assert After(q1, Acquire(0, 0, false)) == q2;
    RunOn(Empty, [Check(0, work)] + [Acquire(0, 0, false)], Enter(0));
  }

  lemma WroteRun(callback: nat, a: int, b: int)
    ensures Run(Wrote(callback, a, b))
            == Empty.(threads := map[0 := Writing(0, Work(callback, [a, b]), 2)],
                      memory := map[0 := Cell(callback, 2, Pair(a, b))])
  {
    var work := Work(callback, [a, b]);
    var entered := [Check(0, work)] + [Acquire(0, 0, false)] + [Enter(0)];
    EnteredRun(callback, a, b);
    RunOn(Empty, entered, Write(0));
    RunOn(Empty, entered + [Write(0)], Write(0));
  }

  /** The work is popped, and nothing of it read yet. */
  function Popping(callback: nat, a: int, b: int): Queue {
    Queue(map[0 := Idle], map[0 := Cell(callback, 2, Pair(a, b))], {0}, [], false, Calling(0, callback, 2, []), true,
          false, [Work(callback, [a, b])], [])
  }

  lemma SignalledRun(callback: nat, a: int, b: int)
    ensures Run(Wrote(callback, a, b) + [Push(0)] + [Signal(0)])
            == Popping(callback, a, b).(list := [0], free := {}, mode := Waiting, signalled := true)
  {
    var wrote := Wrote(callback, a, b);
    WroteRun(callback, a, b);
    RunOn(Empty, wrote, Push(0));
    RunOn(Empty, wrote + [Push(0)], Signal(0));
  }

  lemma PoppedRun(callback: nat, a: int, b: int)
    ensures Run(Submitted(callback, a, b)) == Popping(callback, a, b)
  {
    var signalled := Wrote(callback, a, b) + [Push(0)] + [Signal(0)];
    SignalledRun(callback, a, b);
    RunOn(Empty, signalled, Wake);
    RunOn(Empty, signalled + [Wake], Pop);
  }

  /** Another thread takes the task, and writes one argument into it. */
  function Refilled(callback: nat, a: int, b: int, other: Work): seq<Action> {
    Submitted(callback, a, b) + [Check(1, other)] + [Acquire(1, 0, false)] + [Enter(1)] + [Write(1)]
  }

  lemma ReacquiredRun(callback: nat, a: int, b: int, other: Work)
    requires |other.args| == 1
    ensures Run(Submitted(callback, a, b) + [Check(1, other)] + [Acquire(1, 0, false)])
            == Popping(callback, a, b).(threads := map[0 := Idle, 1 := Acquired(0, other)], free := {})
  {
    var popped := Submitted(callback, a, b);
    PoppedRun(callback, a, b);
    RunOn(Empty, popped, Check(1, other));
    RunOn(Empty, popped + [Check(1, other)], Acquire(1, 0, false));
  }

  lemma RefilledRun(callback: nat, a: int, b: int, other: Work)
    requires |other.args| == 1
    ensures Run(Refilled(callback, a, b, other))
            == Popping(callback, a, b).(threads := map[0 := Idle, 1 := Writing(0, other, 1)], free := {},
                                        memory := map[0 := Cell(other.callback, 1, Pair(other.args[0], b))])
  {
    var acquired := Submitted(callback, a, b) + [Check(1, other)] + [Acquire(1, 0, false)];
    ReacquiredRun(callback, a, b, other);
    RunOn(Empty, acquired, Enter(1));
    RunOn(Empty, acquired + [Enter(1)], Write(1));
    assert Pair(a, b)[0 := other.args[0]] == Pair(other.args[0], b);
  }

  /** A thread refills the task, with one argument for two, before the callback reads them: the
      callback gets the new argument and the old one, which is right if the two agree. */
  lemma GarbledRun(callback: nat, a: int, b: int, other: Work)
    requires |other.args| == 1
    ensures
      var actions := Refilled(callback, a, b, other) + [Read] + [Read] + [Call];
      && Run(actions).accepted == [Work(callback, [a, b])]
      && Run(actions).executed == [Work(callback, [other.args[0], b])]
      && (Garbled(actions) <==> other.args[0] != a)
  {
    var refilled := Refilled(callback, a, b, other);
    RefilledRun(callback, a, b, other);
    RunOn(Empty, refilled, Read);
    RunOn(Empty, refilled + [Read], Read);
    RunOn(Empty, refilled + [Read] + [Read], Call);
    ExecutedPrefix(refilled + [Read] + [Read] + [Call]);
    assert Run(refilled + [Read] + [Read]).mode == Calling(0, callback, 2, [other.args[0], b]);
  }

  // ----- The functions of the program --------------------------------------------------

  /** The actions that are not the loop's. */
  predicate OfThread(a: Action) {
    !a.Wake? && !a.Pop? && !a.Read? && !a.Call? && !a.Settle? && !a.Halt?
  }

  predicate AllOfThreads(actions: seq<Action>) {
    forall a :: a in actions ==> OfThread(a)
  }

  function At(plan: seq<seq<Action>>, i: nat): seq<Action> {
    if i < |plan| then plan[i] else []
  }

  /** What other threads did, they did by the plan. */
  ghost predicate FromPlan(log: seq<Action>, plan: seq<seq<Action>>) {
    forall a :: a in log && OfThread(a) ==> exists actions :: actions in plan && a in actions
  }

  lemma StillFromPlan(log: seq<Action>, plan: seq<seq<Action>>, own: seq<Action>, i: nat)
    requires FromPlan(log, plan) && forall a :: a in own ==> !OfThread(a)
    ensures FromPlan(log + own + At(plan, i), plan)
  {
    if i < |plan| { assert plan[i] in plan; }
  }

  /** The queue as its two functions work on it. */
  class Context {
    var threads: map<nat, Phase>
    var memory: map<nat, Cell>
    var free: set<nat>
    var list: seq<nat>
    var signalled: bool
    var mode: Mode
    var running: bool
    var stopping: bool
    ghost var accepted: seq<Work>
    ghost var executed: seq<Work>

    ghost function St(): Queue
      reads this
    {
      Queue(threads, memory, free, list, signalled, mode, running, stopping, accepted, executed)
    }

    method CheckRunning(t: nat, work: Work)
      requires Inv(St()) && Enabled(St(), Check(t, work))
      modifies this
      ensures St() == Step(old(St()), Check(t, work)) && Inv(St())
    {
      StepKeeps(St(), Check(t, work));
      if running && |work.args| <= MAX_ARGS { threads := threads[t := Checked(work)]; }
    }

    method AcquireTask(t: nat, slot: nat, cleared: bool)
      requires Inv(St()) && Enabled(St(), Acquire(t, slot, cleared))
      modifies this
      ensures St() == Step(old(St()), Acquire(t, slot, cleared)) && Inv(St())
    {
      StepKeeps(St(), Acquire(t, slot, cleared));
      free, threads := free - {slot}, threads[t := Acquired(slot, threads[t].work)];
      if cleared || slot !in memory { memory := memory[slot := Blank]; }
    }

    method EnterTask(t: nat)
      requires Inv(St()) && Enabled(St(), Enter(t))
      modifies this
      ensures St() == Step(old(St()), Enter(t)) && Inv(St())
    {
      StepKeeps(St(), Enter(t));
      var Acquired(slot, work) := threads[t];
      memory := memory[slot := memory[slot].(callback := work.callback, argc := |work.args|)];
      threads := threads[t := Writing(slot, work, 0)];
    }

    method WriteArg(t: nat)
      requires Inv(St()) && Enabled(St(), Write(t))
      modifies this
      ensures St() == Step(old(St()), Write(t)) && Inv(St())
    {
      StepKeeps(St(), Write(t));
      var Writing(slot, work, n) := threads[t];
      memory := memory[slot := memory[slot].(args := memory[slot].args[n := work.args[n]])];
      threads := threads[t := Writing(slot, work, n + 1)];
    }

    method PushTask(t: nat)
      requires Inv(St()) && Enabled(St(), Push(t))
      modifies this
      ensures St() == Step(old(St()), Push(t)) && Inv(St())
    {
      StepKeeps(St(), Push(t));
      var Writing(slot, work, _) := threads[t];
      list, threads, accepted := list + [slot], threads[t := Pushed], accepted + [work];
    }

    method SignalLoop(t: nat)
      requires Inv(St()) && Enabled(St(), Signal(t))
      modifies this
      ensures St() == Step(old(St()), Signal(t)) && Inv(St())
    {
      StepKeeps(St(), Signal(t));
      signalled, threads := true, threads[t := Idle];
    }

    /** The arguments are copied one by one. */
    method FillTask(t: nat)
      requires Inv(St()) && PhaseOf(St(), t).Acquired?
      modifies this
      ensures Inv(St())
      ensures
        var phase := PhaseOf(old(St()), t);
        PhaseOf(St(), t) == Writing(phase.slot, phase.work, |phase.work.args|)
      ensures St() == old(St()).(memory := memory, threads := threads)
    {
      ghost var q, work, slot := St(), threads[t].work, threads[t].slot;
      assert Owns(q, t, slot) && Written(q, t);
      EnterTask(t);
      while threads[t].written < |threads[t].work.args|
        invariant Inv(St()) && t in threads && threads[t].Writing? && threads[t].work == work && threads[t].slot == slot
        invariant threads[t].written <= |work.args| <= MAX_ARGS && slot in memory
        invariant St() == q.(memory := memory, threads := threads)
        decreases |work.args| - threads[t].written
      {
        WriteArg(t);
      }
    }

    /** Submits work in the task that the pool hands out. */
    method SubmitTask(t: nat, work: Work, slot: nat, cleared: bool) returns (ok: bool)
      requires Inv(St()) && PhaseOf(St(), t).Idle? && (slot in free || slot !in memory)
      modifies this
      ensures ok == (old(running) && |work.args| <= MAX_ARGS) && Inv(St()) && PhaseOf(St(), t).Idle?
      ensures !ok ==> St() == old(St())
      ensures ok ==> signalled && list == old(list) + [slot] && accepted == old(accepted) + [work]
      ensures executed == old(executed) && mode == old(mode)
    {
      CheckRunning(t, work);
      ok := running && |work.args| <= MAX_ARGS;
      if ok {
        AcquireTask(t, slot, cleared);
        FillTask(t);
        PushTask(t);
        SignalLoop(t);
      }
    }

    method PopTask()
      requires Inv(St()) && Enabled(St(), Pop)
      modifies this
      ensures St() == Step(old(St()), Pop) && Inv(St())
    {
      StepKeeps(St(), Pop);
      var slot := list[0];
      list, free, mode := list[1..], free + {slot}, Calling(slot, memory[slot].callback, memory[slot].argc, []);
    }

    method ReadArg()
      requires Inv(St()) && Enabled(St(), Read)
      modifies this
      ensures St() == Step(old(St()), Read) && Inv(St())
    {
      StepKeeps(St(), Read);
      mode := mode.(got := mode.got + [memory[mode.slot].args[|mode.got|]]);
    }

    method CallTask()
      requires Inv(St()) && Enabled(St(), Call)
      modifies this
      ensures St() == Step(old(St()), Call) && Inv(St())
    {
      StepKeeps(St(), Call);
      executed, mode := executed + [Work(mode.callback, mode.got)], Draining;
    }

    method WakeUp()
      requires Inv(St()) && Enabled(St(), Wake)
      modifies this
      ensures St() == Step(old(St()), Wake) && Inv(St())
    {
      StepKeeps(St(), Wake);
      signalled, mode := false, Draining;
    }

    /** Another thread acts, if it can. */
    method DoOther(a: Action)
      requires Inv(St()) && OfThread(a)
      modifies this
      ensures St() == After(old(St()), a) && Inv(St())
    {
      match a
      case Check(t, work) => if t !in threads || threads[t].Idle? { CheckRunning(t, work); }
      case Acquire(t, slot, cleared) =>
        if t in threads && threads[t].Checked? && (slot in free || slot !in memory) { AcquireTask(t, slot, cleared); }
      case Enter(t) => if t in threads && threads[t].Acquired? && threads[t].slot in memory { EnterTask(t); }
      case Write(t) => OtherWrites(t);
      case Push(t) =>
        if t in threads && threads[t].Writing? && threads[t].written == |threads[t].work.args| { PushTask(t); }
      case Signal(t) => if t in threads && threads[t].Pushed? { SignalLoop(t); }
      case Shutdown =>
        StepKeeps(St(), Shutdown);
        running, stopping := false, true;
    }

    method OtherWrites(t: nat)
      requires Inv(St())
      modifies this
      ensures St() == After(old(St()), Write(t)) && Inv(St())
    {
      if t in threads && threads[t].Writing? && threads[t].slot in memory
         && threads[t].written < |threads[t].work.args| && threads[t].written < MAX_ARGS
         && |memory[threads[t].slot].args| == MAX_ARGS
      {
        WriteArg(t);
      }
    }

    method InterleaveOne(actions: seq<Action>, i: nat, ghost q: Queue, ghost log: seq<Action>)
      requires Inv(St()) && AllOfThreads(actions) && i < |actions| && St() == RunFrom(q, log + actions[..i])
      modifies this
      ensures Inv(St()) && St() == RunFrom(q, log + actions[..i + 1])
      ensures mode == old(mode) && executed == old(executed) && old(list) <= list
    {
      RunNextOf(q, log, actions, i);
      DoOther(actions[i]);
    }

    /** Other threads act, while the loop is between two of its own actions. */
    method Interleave(actions: seq<Action>, ghost q: Queue, ghost log: seq<Action>) returns (ghost log': seq<Action>)
      requires Inv(St()) && AllOfThreads(actions) && St() == RunFrom(q, log)
      modifies this
      ensures Inv(St()) && St() == RunFrom(q, log') && log' == log + actions
      ensures mode == old(mode) && executed == old(executed) && old(list) <= list
      ensures actions == [] ==> list == old(list)
    {
      var i := 0;
      assert log + actions[..0] == log;
      while i < |actions|
        invariant 0 <= i <= |actions| && Inv(St()) && St() == RunFrom(q, log + actions[..i])
        invariant mode == old(mode) && executed == old(executed) && old(list) <= list
        invariant i == 0 ==> list == old(list)
      {
        InterleaveOne(actions, i, q, log);
        i := i + 1;
      }
      assert actions[..i] == actions;
      log' := log + actions;
    }

    /** Other threads act, and the callback reads its next argument. */
    method ReadNext(plan: seq<seq<Action>>, i: nat, ghost q: Queue, ghost log: seq<Action>)
      returns (ghost log': seq<Action>)
      requires Inv(St()) && mode.Calling? && |mode.got| < mode.argc && St() == RunFrom(q, log) && FromPlan(log, plan)
      requires AllOfThreads(At(plan, i))
      modifies this
      ensures Inv(St()) && mode.Calling? && St() == RunFrom(q, log') && FromPlan(log', plan)
      ensures mode.argc == old(mode.argc) && |mode.got| == old(|mode.got|) + 1
      ensures executed == old(executed) && old(list) <= list && (i >= |plan| ==> list == old(list))
    {
      StillFromPlan(log, plan, [], i);
      assert log + [] == log;
      log' := Interleave(At(plan, i), q, log);
      RunOn(q, log', Read);
      StillFromPlan(log', plan, [Read], |plan|);
      assert log' + [Read] + [] == log' + [Read];
      ReadArg();
      log' := log' + [Read];
    }

    /** The callback reads all of its arguments, and returns. */
    method CallBack(plan: seq<seq<Action>>, from: nat, ghost q: Queue, ghost log: seq<Action>)
      returns (i: nat, ghost log': seq<Action>)
      requires Inv(St()) && mode.Calling? && St() == RunFrom(q, log) && FromPlan(log, plan)
      requires forall j: nat :: AllOfThreads(At(plan, j))
      modifies this
      ensures Inv(St()) && mode.Draining? && St() == RunFrom(q, log') && FromPlan(log', plan) && i >= from
      ensures old(executed) < executed && old(list) <= list && (from >= |plan| ==> list == old(list))
    {
      i, log' := from, log;
      while |mode.got| < mode.argc
        invariant Inv(St()) && mode.Calling? && St() == RunFrom(q, log') && FromPlan(log', plan) && i >= from
        invariant executed == old(executed) && old(list) <= list && (from >= |plan| ==> list == old(list))
        decreases mode.argc - |mode.got|
      {
        log' := ReadNext(plan, i, q, log');
        i := i + 1;
      }
      RunOn(q, log', Call);
      StillFromPlan(log', plan, [Call], |plan|);
      assert log' + [Call] + [] == log' + [Call];
      CallTask();
      log' := log' + [Call];
    }

    /** Pops one task and calls it, then lets other threads act. */
    method RunNext(plan: seq<seq<Action>>, from: nat, ghost q: Queue, ghost log: seq<Action>)
      returns (i: nat, ghost log': seq<Action>)
      requires Inv(St()) && mode.Draining? && list != [] && St() == RunFrom(q, log) && FromPlan(log, plan)
      requires forall j: nat :: AllOfThreads(At(plan, j))
      modifies this
      ensures Inv(St()) && mode.Draining? && St() == RunFrom(q, log') && FromPlan(log', plan) && i > from
      ensures old(executed) < executed && (from >= |plan| ==> list == old(list)[1..])
    {
      RunOn(q, log, Pop);
      StillFromPlan(log, plan, [Pop], |plan|);
      assert log + [Pop] + [] == log + [Pop];
      PopTask();
      i, log' := CallBack(plan, from, q, log + [Pop]);
      StillFromPlan(log', plan, [], i);
      assert log' + [] == log';
      log' := Interleave(At(plan, i), q, log');
      i := i + 1;
    }

    method Start(plan: seq<seq<Action>>, ghost q: Queue) returns (ghost log: seq<Action>)
      requires Inv(St()) && mode.Waiting? && signalled && q == St() && AllOfThreads(At(plan, 0))
      modifies this
      ensures Inv(St()) && mode.Draining? && St() == RunFrom(q, log) && q.executed <= executed && FromPlan(log, plan)
    {
      RunOn(q, [], Wake);
      assert [] + [Wake] == [Wake];
      WakeUp();
      log := Interleave(At(plan, 0), q, [Wake]);
      StillFromPlan([], plan, [Wake], 0);
      assert [] + [Wake] + At(plan, 0) == log;
    }

    method Finish(plan: seq<seq<Action>>, ghost q: Queue, ghost log: seq<Action>) returns (ghost log': seq<Action>)
      requires Inv(St()) && mode.Draining? && list == [] && St() == RunFrom(q, log) && FromPlan(log, plan)
      modifies this
      ensures Inv(St()) && mode.Waiting? && St() == RunFrom(q, log') && FromPlan(log', plan)
      ensures list == [] && executed == old(executed) && |executed| == |accepted|
    {
      StepKeeps(St(), Settle);
      RunOn(q, log, Settle);
      StillFromPlan(log, plan, [Settle], |plan|);
      assert log + [Settle] + At(plan, |plan|) == log + [Settle];
      log', mode := log + [Settle], Waiting;
    }

    /** Runs everything that is in the list, and whatever other threads put there meanwhile:
        plan[i] is what they do in the i-th gap between the actions of the loop. */
    method AsyncTaskCallback(plan: seq<seq<Action>>) returns (ghost log: seq<Action>)
      requires Inv(St()) && mode.Waiting? && signalled && forall i: nat :: AllOfThreads(At(plan, i))
      modifies this
      ensures Inv(St()) && St() == RunFrom(old(St()), log) && FromPlan(log, plan)
      ensures mode.Waiting? && list == [] && |executed| == |accepted| && old(executed) <= executed
    {
      ghost var q := St();
      var i := 1;
      log := Start(plan, q);
      while list != []
        invariant Inv(St()) && mode.Draining? && St() == RunFrom(q, log) && q.executed <= executed
        invariant FromPlan(log, plan)
        decreases if i < |plan| then |plan| - i else 0, |list|
      {
        i, log := RunNext(plan, i, q, log);
      }
      log := Finish(plan, q, log);
    }
  }
}
