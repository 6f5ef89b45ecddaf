/** What the steps of a run leave behind: the strays are the data channels that were active when
    the closed event of their DC was handled, and the late pings belong to the sessions whose
    last channel opened after they were closed. */
module Strays {
  import opened Wrappers
  import opened Model
  import opened Lifecycle
  import opened Invariants
  import opened Handshaking
  import opened Steps
  import opened Steadiness
  import opened Theorems
  import opened Drain

  // ----- Strays ------------------------------------------------------------------------

  /** The channel that a step makes a stray: a data channel whose DC closes while it is active. */
  function Strayed(st: State, step: Step): set<nat> {
    if step.LoopStep? && st.tasks != [] && st.tasks[0].Event? && st.tasks[0].source.Dc? && st.tasks[0].what.Closed?
       && st.tasks[0].source.c in st.channels && st.channels[st.tasks[0].source.c].active
       && st.channels[st.tasks[0].source.c].index != SYSTEM_INDEX
    then {st.tasks[0].source.c}
    else {}
  }

  lemma NextStrays(st: State, step: Step)
    requires Enabled(st, step)
    ensures Next(st, step).ledger.strays == st.ledger.strays + Strayed(st, step)
  {
    NextSteady(st, step);
  }

  /** The channels made strays by the steps of a run. */
  ghost function RunStrays(steps: seq<Step>): set<nat> {
    if steps == [] then {}
    else
      var st, step := Run(steps[..|steps| - 1]), steps[|steps| - 1];
      RunStrays(steps[..|steps| - 1]) + if Enabled(st, step) then Strayed(st, step) else {}
  }

  lemma {:induction false} RunStraysAre(steps: seq<Step>)
    ensures Run(steps).ledger.strays == RunStrays(steps)
  {
    if steps != [] {
      var st, step := Run(steps[..|steps| - 1]), steps[|steps| - 1];
      RunStraysAre(steps[..|steps| - 1]);
      if Enabled(st, step) { NextStrays(st, step); }
    }
  }

  /** A run that has drained has released every object it acquired, each of them once, if and
      only if none of its steps handled the closed event of an active data channel. */
  lemma RunReleasesAll(steps: seq<Step>)
    requires !Run(steps).fault && ShutDown(Run(steps)) && Drained(Run(steps))
    ensures
      var st := Run(steps);
      RunStrays(steps) == {} <==> forall r :: r in st.ledger.acquired ==> st.ledger.released[r] == 1
  {
    var st := Run(steps);
    RunStraysAre(steps);
    DrainReleasesAll(st);
    OnlyStraysLeft(st);
    NoDanglingParents(st);
    if c :| c in RunStrays(steps) {
      assert Live(st.sockets, st.sessions, st.channels, ChannelRef(c));
    }
  }

  // ----- Late pings --------------------------------------------------------------------

  /** The session whose last channel opens in this step, after it was closed, and whose ping
      timer is started all the same. */
  function LateOpened(st: State, step: Step): set<nat> {
    if step.LoopStep? && step.o.timer && st.tasks != [] && st.tasks[0].Event? && st.tasks[0].source.Dc?
       && st.tasks[0].what.Open? && st.tasks[0].source.c in st.channels
       && st.channels[st.tasks[0].source.c].session in st.sessions
       && OpensLast(st.sessions[st.channels[st.tasks[0].source.c].session])
    then {st.channels[st.tasks[0].source.c].session}
    else {}
  }

  /** One opening is missing, and the session is closed. */
  predicate OpensLast(x: Session) {
    !x.active && x.openCount == |x.channels|
  }

  lemma NextLate(st: State, step: Step)
    requires Enabled(st, step)
    ensures Next(st, step).ledger.late.Keys == st.ledger.late.Keys + LateOpened(st, step)
  {
    NextSteady(st, step);
  }

  /** The sessions whose last channel opened late in the steps of a run. */
  ghost function LateOpens(steps: seq<Step>): set<nat> {
    if steps == [] then {}
    else
      var st, step := Run(steps[..|steps| - 1]), steps[|steps| - 1];
      LateOpens(steps[..|steps| - 1]) + if Enabled(st, step) then LateOpened(st, step) else {}
  }

  lemma {:induction false} LateOpensAre(steps: seq<Step>)
    ensures Run(steps).ledger.late.Keys == LateOpens(steps)
  {
    if steps != [] {
      var st, step := Run(steps[..|steps| - 1]), steps[|steps| - 1];
      LateOpensAre(steps[..|steps| - 1]);
      if Enabled(st, step) { NextLate(st, step); }
    }
  }

  predicate PingRuns(st: State, s: nat) {
    exists t | t in st.timers :: st.timers[t] == Ping(s)
  }

  /** A closed or released session has a ping timer if and only if its last channel opened after
      it was closed. */
  lemma PingOutlives(steps: seq<Step>, s: nat)
    requires !Run(steps).fault
    ensures
      var st := Run(steps);
      PingRuns(st, s) && (s in st.sessions ==> !st.sessions[s].active) <==> s in LateOpens(steps)
  {
    var st, none: set<Ref> := Run(steps), {};
    RunInvariant(steps);
    LateOpensAre(steps);
    assert Holds(Pings, st, multiset{}, none);
    if t :| t in st.timers && st.timers[t] == Ping(s) {
      assert PingLate(t, st.sessions, st.timers, st.ledger.late, none);
    }
    if s in LateOpens(steps) {
      assert s in st.ledger.late;
      assert LateLives(s, st.sessions, st.timers, st.ledger.late);
    }
  }

  /** Without a late opening, a ping is a hazard only where every close of its session is. */
  lemma PromptPings(steps: seq<Step>, t: nat)
    requires !Run(steps).fault && LateOpens(steps) == {}
    requires t in Run(steps).timers && Run(steps).timers[t].Ping?
    ensures
      var st, s := Run(steps), Run(steps).timers[t].s;
      && s in st.sessions && st.sessions[s].active && st.sessions[s].ping == Some(t)
      && (TimerHazard(st, st.timers[t]) <==> StaleIn(st, s))
  {
    var st, s := Run(steps), Run(steps).timers[t].s;
    RunInvariant(steps);
    PingOutlives(steps, s);
    assert PingRuns(st, s);
    SessionFactsOf(st, s, t);
  }

  lemma SessionFactsOf(st: State, s: nat, t: nat)
    requires Invariant(st) && s in st.sessions && t in st.timers && st.timers[t] == Ping(s)
    ensures st.sessions[s].ping == Some(t) && st.sessions[s].system.Some?
  {
    Read(st, multiset{}, {});
    assert TimerOwned(t, st.sessions, st.timers);
    assert Progresses(s, st.sessions, QueueRefs(st.tasks, st.exec));
  }

  /** A run that has drained leaves a timer running if and only if a channel opened late, and
      then one for each such session. */
  lemma TimersLeft(steps: seq<Step>)
    requires !Run(steps).fault && ShutDown(Run(steps)) && Drained(Run(steps))
    ensures forall t :: t in Run(steps).timers ==>
              Run(steps).timers[t].Ping? && Run(steps).timers[t].s in LateOpens(steps)
    ensures Run(steps).timers == map[] <==> LateOpens(steps) == {}
  {
    var st := Run(steps);
    RunInvariant(steps);
    AllInactive(st);
    forall t | t in st.timers ensures st.timers[t].Ping? && st.timers[t].s in LateOpens(steps) {
      assert t !in Timeouts(st.timers);
      assert st.timers[t] == Ping(st.timers[t].s);
      PingOutlives(steps, st.timers[t].s);
    }
    if s :| s in LateOpens(steps) { PingOutlives(steps, s); }
  }
}
