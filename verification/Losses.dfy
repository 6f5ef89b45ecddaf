/** Which native sessions of a run are never destroyed, and what stays fixed over its steps. */
module Losses {
  import opened Wrappers
  import opened Model
  import Frames
  import opened Lifecycle
  import opened Invariants
  import opened Counting
  import opened Dwindling
  import opened Opening
  import opened Steps
  import opened Steadiness
  import opened Theorems

  // ----- Lost destroys -----------------------------------------------------------------

  ghost predicate IsHeld(n: nat, sessions: Sessions) {
    exists s :: s in sessions && sessions[s].native == Some(n)
  }

  /** The native session that the step hands over. */
  function HandedBy(st: State, step: Step): multiset<nat> {
    if step.LoopStep? && st.tasks != [] then TransitOf(st.tasks[0]) else multiset{}
  }

  /** The native sessions that were held, or are handed over, and are not held after the step. */
  ghost function GivenUp(st: State, step: Step): set<nat>
    requires Enabled(st, step)
  {
    set n | n in st.made && (IsHeld(n, st.sessions) || n in HandedBy(st, step)) && !IsHeld(n, Next(st, step).sessions)
  }

  /** The destroys that the steps of a run lose: of what is given up while no native socket
      listens. */
  ghost function RunLost(steps: seq<Step>): multiset<nat> {
    if steps == [] then multiset{}
    else
      var st, step := Run(steps[..|steps| - 1]), steps[|steps| - 1];
      RunLost(steps[..|steps| - 1])
      + if Enabled(st, step) && st.listening == {} then multiset(GivenUp(st, step)) else multiset{}
  }

  lemma HeldOnce(st: State, n: nat)
    requires Invariant(st)
    ensures |HoldersOf(st.sessions, n)| == B(IsHeld(n, st.sessions))
    ensures OnePlace(n, st.sessions, st.tasks, st.exec, st.made, st.destroyed, st.lost)
  {
    assert Holds(Natives, st, multiset{}, {});
    assert OnePlace(n, st.sessions, st.tasks, st.exec, st.made, st.destroyed, st.lost);
    if IsHeld(n, st.sessions) {
      var s :| s in st.sessions && st.sessions[s].native == Some(n);
      assert s in HoldersOf(st.sessions, n);
    } else {
      assert HoldersOf(st.sessions, n) == {};
    }
  }

  /** Only a task or a timer gives a native session up. */
  lemma OthersHold(st: State, step: Step)
    requires Enabled(st, step) && !step.LoopStep? && !step.TimerStep?
    ensures SameObjects(st.(listening := Next(st, step).listening), Next(st, step))
  {
    match step
    case ExecStep(o) => ExecuteKeepsObjects(st, o);
    case _ =>
  }

  lemma OneLost(st: State, step: Step, n: nat)
    requires Invariant(st) && Enabled(st, step) && Invariant(Next(st, step)) && (step.LoopStep? || step.TimerStep?)
    requires st.listening == {}
    ensures Next(st, step).lost[n] == st.lost[n] + B(n in GivenUp(st, step))
  {
    var st' := Next(st, step);
    RunsSteady(st, step);
    HeldOnce(st, n);
    HeldOnce(st', n);
    if step.LoopStep? { Popped(TransitOf, st.tasks); }
    assert Transit(st.tasks)[n] == HandedBy(st, step)[n] + Transit(st'.tasks)[n];
  }

  lemma NextLost(st: State, step: Step)
    requires Invariant(st) && Enabled(st, step) && Invariant(Next(st, step))
    ensures Next(st, step).lost
            == st.lost + if st.listening == {} then multiset(GivenUp(st, step)) else multiset{}
  {
    var st' := Next(st, step);
    if step.LoopStep? || step.TimerStep? {
      RunsSteady(st, step);
      if st.listening == {} {
        forall n: nat ensures st'.lost[n] == (st.lost + multiset(GivenUp(st, step)))[n] { OneLost(st, step, n); }
        assert st'.lost == st.lost + multiset(GivenUp(st, step));
      }
    } else {
      OthersHold(st, step);
      assert GivenUp(st, step) == {};
    }
  }

  /** The native sessions never destroyed are those given up while the executor was down. */
  lemma {:induction false} RunLostIs(steps: seq<Step>)
    requires !Run(steps).fault
    ensures Run(steps).lost == RunLost(steps)
  {
    if steps != [] {
      var st, step := Run(steps[..|steps| - 1]), steps[|steps| - 1];
      RunLostIs(steps[..|steps| - 1]);
      RunInvariant(steps[..|steps| - 1]);
      RunInvariant(steps);
      if Enabled(st, step) { NextLost(st, step); }
    }
  }

  // ----- After the last native socket stopped ------------------------------------------

  ghost predicate NoListen(steps: seq<Step>) {
    forall step :: step in steps ==> !step.Listen?
  }

  /** Without the executor, the destroys that are requested or done stay as many. */
  predicate Silenced(st: State, st': State) {
    st'.listening == {} && Requested(st'.exec) + st'.destroyed == Requested(st.exec) + st.destroyed
  }

  lemma NextSilenced(st: State, step: Step)
    requires Enabled(st, step) && st.listening == {} && !step.Listen? && !Next(st, step).fault
    ensures Silenced(st, Next(st, step))
  {
    match step
    case LoopStep(_) => RunsSteady(st, step);
    case TimerStep(_) => RunsSteady(st, step);
    case ExecStep(o) =>
      Popped(RequestOf, st.exec);
      ExecuteKeepsObjects(st, o);
      CommandDestroys(st.(exec := st.exec[1..]), st.exec[0], o);
    case _ =>
  }

  lemma CommandDestroys(st: State, command: Command, o: Outcome)
    requires !RunCommand(st, command, o).fault
    ensures RunCommand(st, command, o).exec == st.exec
    ensures RunCommand(st, command, o).destroyed == st.destroyed + RequestOf(command)
  {
    match command
    case Create(s) => CreateDestroysNone(st, s, o);
    case Receive(c, target) => ReceiveDestroysNone(st, c, target, o);
    case Destroy(n) => DestroyDestroys(st, n, o);
  }

  lemma ReceiveDestroysNone(st: State, c: nat, target: Option<nat>, o: Outcome)
    ensures
      var st' := RunCommand(st, Receive(c, target), o);
      st'.exec == st.exec && st'.destroyed == st.destroyed
  {
    var tasks' := st.tasks + [Received(c)];
    assert RunCommand(st, Receive(c, target), o) in {Fail(st), st.(tasks := tasks')};
  }

  lemma DestroyDestroys(st: State, n: nat, o: Outcome)
    requires n !in st.destroyed
    ensures RunCommand(st, Destroy(n), o).exec == st.exec
    ensures RunCommand(st, Destroy(n), o).destroyed == st.destroyed + multiset{n}
  {
  }

  lemma CreateDestroysNone(st: State, s: nat, o: Outcome)
    ensures
      var st' := RunCommand(st, Command.Create(s), o);
      st'.exec == st.exec && st'.destroyed == st.destroyed
  {
  }

  lemma SilencedOn(st: State, st1: State, st2: State)
    requires Silenced(st, st1) && Silenced(st1, st2)
    ensures Silenced(st, st2)
  {
  }

  lemma {:induction false} RunSilenced(before: seq<Step>, after: seq<Step>)
    requires Run(before).listening == {} && NoListen(after) && !Run(before + after).fault
    ensures Silenced(Run(before), Run(before + after))
    decreases |after|
  {
    if after == [] {
      assert before + after == before;
    } else {
      var n := |after| - 1;
      var st := Run(before + after[..n]);
      RunSplits(before, after);
      assert !after[n].Listen?;
      RunSilenced(before, after[..n]);
      if Enabled(st, after[n]) {
        NextSilenced(st, after[n]);
        SilencedOn(Run(before), st, Next(st, after[n]));
      }
    }
  }

  lemma {:induction false} RunFaultLasts(before: seq<Step>, after: seq<Step>)
    requires !Run(before + after).fault
    ensures !Run(before).fault
    decreases |after|
  {
    if after == [] {
      assert before + after == before;
    } else {
      RunSplits(before, after);
      RunFaultLasts(before, after[..|after| - 1]);
    }
  }

  /** Once the last native socket has stopped, a run that ends with no session and no task has
      lost exactly the native sessions that were held or on their way at that time, and those
      made since. */
  lemma LostAfterLastStop(before: seq<Step>, after: seq<Step>)
    requires Run(before).listening == {} && NoListen(after) && !Run(before + after).fault
    requires Run(before + after).sessions == map[] && Run(before + after).tasks == []
    ensures
      var st, st' := Run(before), Run(before + after);
      forall n: nat ::
        st'.lost[n] == st.lost[n] + B(IsHeld(n, st.sessions)) + Transit(st.tasks)[n]
                       + B(n in st'.made) - B(n in st.made)
  {
    var st, st' := Run(before), Run(before + after);
    RunFaultLasts(before, after);
    RunInvariant(before);
    RunInvariant(before + after);
    RunSilenced(before, after);
    forall n: nat
      ensures st'.lost[n] == st.lost[n] + B(IsHeld(n, st.sessions)) + Transit(st.tasks)[n] + B(n in st'.made)
                             - B(n in st.made)
    {
      HeldOnce(st, n);
      HeldOnce(st', n);
      assert (Requested(st'.exec) + st'.destroyed)[n] == (Requested(st.exec) + st.destroyed)[n];
      assert !IsHeld(n, st'.sessions) && Transit(st'.tasks)[n] == 0;
    }
  }

  // ----- What stays fixed --------------------------------------------------------------

  /** After its authentication result, a session keeps its number of slots. */
  lemma SlotsStayFixed(st: State, step: Step, s: nat)
    requires Reachable(st) && Enabled(st, step) && s in st.sessions && s in Next(st, step).sessions
    requires st.sessions[s].authResults == 1
    ensures
      var x, y := st.sessions[s], Next(st, step).sessions[s];
      |y.channels| == |x.channels| && y.authResults == 1
  {
    ReachableInvariant(st);
    NextSteady(st, step);
    Unused(st, st.next, multiset{}, {});
    if s in SlotsNext(st, step) && st.tasks[0].source.Ws? {
      NotYetAuthenticated(st, s, multiset{}, {});
    }
  }
}
