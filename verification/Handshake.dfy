/** The handshake keeps the invariant: READY, the opening of the channels, and the request for
    the native session. */
module Handshaking {
  import opened Wrappers
  import opened Model
  import opened Lifecycle
  import opened Invariants
  import opened Counting
  import opened Updates
  import opened Unref
  import opened Closing
  import opened Opening

  lemma {:induction false} SubsetSize<T>(a: set<T>, b: set<T>)
    requires a <= b
    ensures |a| <= |b|
  {
    assert b == a + (b - a);
  }

  /** A step of the handshake: flags and counts of one session change, and the executor may be
      asked for its native session, which takes a reference. */
  ghost predicate Steps(st: State, st': State, s: nat, asked: nat)
    requires s in st.sessions && s in st'.sessions
  {
    var x, y, refs := st.sessions[s], st'.sessions[s], Gather(CommandRef, st.exec);
    && st' == st.(sessions := st.sessions[s := y], exec := st'.exec)
    && y == x.(ref := x.ref + asked, readyReceived := y.readyReceived, allOpened := y.allOpened,
               openings := y.openings, openCount := y.openCount, openedBy := y.openedBy)
    && Gather(CommandRef, st'.exec) == refs[SessionRef(s) := refs[SessionRef(s)] + asked]
    && Requested(st'.exec) == Requested(st.exec)
  }

  lemma StepRecorded(st: State, st': State, s: nat, asked: nat, hand: multiset<Ref>, busy: set<Ref>)
    requires Inv(st, hand, busy) && s in st.sessions && s in st'.sessions && Steps(st, st', s, asked)
    ensures Timed(st'.sessions, st.timers) && Latent(st'.sessions, st.timers, st.ledger.late, busy)
    ensures forall c :: c in st.channels && st.channels[c].session == s ==>
              ChannelActive(c, st'.sessions, st.channels, st.rtc, busy)
  {
    var y := st'.sessions[s];
    assert Holds(Clocks, st, hand, busy) && Holds(Activity, st, hand, busy) && Holds(Pings, st, hand, busy);
    SameTimers(st.sessions, st.timers, s, y);
    SameLatent(st.sessions, st.timers, st.ledger.late, s, y, busy, busy);
    SameActivity(st.sessions, st.channels, st.rtc, s, y, busy);
  }

  lemma StepConserved(st: State, st': State, s: nat, asked: nat, hand: multiset<Ref>, busy: set<Ref>)
    requires Inv(st, hand, busy) && s in st.sessions && s in st'.sessions && Steps(st, st', s, asked)
    ensures Conserved(st'.sessions, st.tasks, st'.exec, st.made, st.destroyed, st.lost)
  {
    var y := st'.sessions[s];
    assert Holds(Natives, st, hand, busy);
    SessionConserved(st.sessions, st.tasks, st.tasks, st.exec, st'.exec, st.made, st.destroyed, st.lost, st.lost, s, y);
  }

  lemma StepCounted(st: State, st': State, s: nat, asked: nat, hand: multiset<Ref>, busy: set<Ref>)
    requires Inv(st, hand, busy) && s in st.sessions && s in st'.sessions && Steps(st, st', s, asked)
    requires Progress(st'.sessions[s], QueueRefs(st.tasks, st.exec)[SessionRef(s)] + asked)
    ensures SessionStep(st, st', s, hand, busy)
    ensures SameBut(QueueRefs(st.tasks, st.exec), QueueRefs(st.tasks, st'.exec), SessionRef(s))
  {
    SessionFacts(st, s, hand, busy);
  }

  lemma StepsKeeps(st: State, st': State, s: nat, asked: nat, hand: multiset<Ref>, busy: set<Ref>)
    requires Inv(st, hand, busy) && s in st.sessions && s in st'.sessions && Steps(st, st', s, asked)
    requires Progress(st'.sessions[s], QueueRefs(st.tasks, st.exec)[SessionRef(s)] + asked)
    requires OpensOnce(st'.sessions, st.channels, st.tasks, st.openPosted) && Usable(st'.exec, st.destroyed)
    ensures Inv(st', hand, busy)
  {
    StepCounted(st, st', s, asked, hand, busy);
    StepRecorded(st, st', s, asked, hand, busy);
    StepConserved(st, st', s, asked, hand, busy);
    SessionKeeps(st, st', s, hand, hand, busy, busy);
  }

  /** The commands once the native session was asked for. */
  function Requests(st: State, s: nat): seq<Command> {
    if ExecutorUp(st) then st.exec + [Command.Create(s)] else st.exec
  }

  /** The request for the native session, given the record of the session before it. */
  function Ask(st: State, s: nat, y: Session): State {
    st.(sessions := st.sessions[s := y.(ref := y.ref + B(ExecutorUp(st)), openings := y.openings + 1)],
        exec := Requests(st, s))
  }

  lemma PluginOpenAsks(st: State, s: nat)
    requires s in st.sessions && st.sessions[s].native.None?
    ensures PluginOpen(st, s) == Ask(st, s, st.sessions[s])
  {
    var x := st.sessions[s];
    var y := x.(openings := x.openings + 1);
    if ExecutorUp(st) {
      Twice(st.sessions, s, y, y.(ref := x.ref + 1));
    } else {
      assert y.(ref := x.ref + 0) == y;
    }
  }

  lemma TimeoutCommutes(st: State, s: nat, y: Session)
    requires s in st.sessions && y.timeout == st.sessions[s].timeout
    ensures UnscheduleTimeout(SetSession(st, s, y), s) == SetSession(UnscheduleTimeout(st, s), s, y.(timeout := None))
  {
  }

  lemma RequestsGathered(st: State, s: nat)
    ensures
      var refs := Gather(CommandRef, st.exec);
      Gather(CommandRef, Requests(st, s)) == refs[SessionRef(s) := refs[SessionRef(s)] + B(ExecutorUp(st))]
    ensures Requested(Requests(st, s)) == Requested(st.exec)
    ensures Usable(st.exec, st.destroyed) ==> Usable(Requests(st, s), st.destroyed)
  {
    Pushed(CommandRef, st.exec, Command.Create(s));
    Pushed(RequestOf, st.exec, Command.Create(s));
    if Usable(st.exec, st.destroyed) { UsablePushed(st.exec, st.destroyed, Command.Create(s)); }
  }

  lemma ProgressUncounted(x: Session, y: Session, pending: nat)
    requires Progress(x, pending) && y == x.(ref := y.ref, timeout := y.timeout)
    ensures Progress(y, pending)
  {
  }

  lemma AskSteps(st: State, s: nat, y: Session)
    requires s in st.sessions
    requires
      y == st.sessions[s].(readyReceived := y.readyReceived, allOpened := y.allOpened, openCount := y.openCount,
                           openedBy := y.openedBy)
    ensures Steps(st, Ask(st, s, y), s, B(ExecutorUp(st)))
  {
    RequestsGathered(st, s);
  }

  lemma AskKeeps(st: State, s: nat, y: Session, hand: multiset<Ref>, busy: set<Ref>)
    requires Inv(st, hand, busy) && s in st.sessions
    requires
      y == st.sessions[s].(readyReceived := y.readyReceived, allOpened := y.allOpened, openCount := y.openCount,
                           openedBy := y.openedBy)
    requires Progress(y.(openings := y.openings + 1), QueueRefs(st.tasks, st.exec)[SessionRef(s)] + B(ExecutorUp(st)))
    requires OpensOnce(st.sessions[s := y], st.channels, st.tasks, st.openPosted)
    ensures Inv(Ask(st, s, y), hand, busy)
  {
    var y', asked := Ask(st, s, y).sessions[s], B(ExecutorUp(st));
    assert Holds(Commands, st, hand, busy);
    RequestsGathered(st, s);
    AskSteps(st, s, y);
    ProgressUncounted(y.(openings := y.openings + 1), y', QueueRefs(st.tasks, st.exec)[SessionRef(s)] + asked);
    OpensRecounted(st.sessions, st.channels, st.tasks, st.openPosted, s, y, y');
    StepsKeeps(st, Ask(st, s, y), s, asked, hand, busy);
  }

  lemma OpensRecounted(sessions: Sessions, channels: Channels, tasks: seq<Task>, openPosted: set<nat>, s: nat,
                       y: Session, y': Session)
    requires OpensOnce(sessions[s := y], channels, tasks, openPosted)
    requires y'.openedBy == y.openedBy && y'.members == y.members
    ensures OpensOnce(sessions[s := y'], channels, tasks, openPosted)
  {
    SessionOpens(sessions[s := y], channels, tasks, openPosted, s, y');
    assert sessions[s := y][s := y'] == sessions[s := y'];
  }

  lemma OnReadyAsks(st: State, s: nat, y: Session)
    requires s in st.sessions && y.timeout == st.sessions[s].timeout && y.native.None?
    ensures OnReady(SetSession(st, s, y), s) == Ask(UnscheduleTimeout(st, s), s, y.(timeout := None))
  {
    var st1 := UnscheduleTimeout(st, s);
    TimeoutCommutes(st, s, y);
    PluginOpenAsks(SetSession(st1, s, y.(timeout := None)), s);
    AskOver(st1, s, y.(timeout := None));
  }

  lemma AskOver(st: State, s: nat, y: Session)
    requires s in st.sessions
    ensures Ask(SetSession(st, s, y), s, y) == Ask(st, s, y)
  {
    var z := y.(openings := y.openings + 1);
    assert st.sessions[s := y][s := z] == st.sessions[s := z];
    var z' := y.(ref := y.ref + 1, openings := y.openings + 1);
    assert st.sessions[s := y][s := z'] == st.sessions[s := z'];
  }

  // ----- READY -------------------------------------------------------------------------

  lemma ReadyAsks(st: State, s: nat)
    requires s in st.sessions && !st.sessions[s].readyReceived && st.sessions[s].allOpened
    requires st.sessions[s].native.None?
    ensures RecvReady(st, s)
            == Ask(UnscheduleTimeout(st, s), s, st.sessions[s].(readyReceived := true, timeout := None))
  {
    var y := st.sessions[s].(readyReceived := true);
    assert RecvReady(st, s) == OnReady(SetSession(st, s, y), s);
    OnReadyAsks(st, s, y);
  }

  lemma RecvReadyKeeps(st: State, s: nat, hand: multiset<Ref>, busy: set<Ref>)
    requires Inv(st, hand, busy) && s in st.sessions && st.sessions[s].authenticated
    ensures Inv(RecvReady(st, s), hand, busy)
  {
    var x := st.sessions[s];
    SessionFacts(st, s, hand, busy);
    if !x.readyReceived {
      if x.allOpened {
        var st1, y := UnscheduleTimeout(st, s), x.(readyReceived := true, timeout := None);
        UnscheduleTimeoutKeeps(st, s, hand, busy);
        ReadyAsks(st, s);
        assert Holds(Opens, st1, hand, busy);
        SessionOpens(st1.sessions, st1.channels, st1.tasks, st1.openPosted, s, y);
        AskKeeps(st1, s, y, hand, busy);
      } else {
        var y := x.(readyReceived := true);
        assert Holds(Opens, st, hand, busy) && Holds(Commands, st, hand, busy);
        SessionOpens(st.sessions, st.channels, st.tasks, st.openPosted, s, y);
        StepsKeeps(st, SetSession(st, s, y), s, 0, hand, busy);
      }
    }
  }

  // ----- A channel opens ---------------------------------------------------------------

  function SeesOpen(x: Session, c: nat): Session {
    x.(openCount := x.openCount + 1, openedBy := x.openedBy + {c})
  }

  /** All channels are open at most once, and when they are, the system channel is there. */
  lemma OpenCounted(x: Session, c: nat, pending: nat, asked: nat)
    requires Progress(x, pending) && c in x.members && c !in x.openedBy && asked <= 1
    ensures x.openCount <= |x.channels| && !x.allOpened && x.ping.None? && x.openings == 0 && x.native.None?
    ensures x.openCount < |x.channels| ==> Progress(SeesOpen(x, c), pending)
    ensures x.openCount == |x.channels| && !x.readyReceived ==>
              Progress(SeesOpen(x, c).(allOpened := true), pending)
    ensures x.openCount == |x.channels| && x.readyReceived ==>
              Progress(SeesOpen(x, c).(allOpened := true, openings := 1), pending + asked)
  {
    SubsetSize(x.openedBy + {c}, x.members);
    assert |x.openedBy + {c}| == x.openCount + 1;
  }

  lemma OpenRecorded(sessions: Sessions, channels: Channels, tasks: seq<Task>, openPosted: set<nat>, s: nat,
                     y: Session, c: nat)
    requires OpensOnce(sessions, channels, tasks, openPosted) && s in sessions
    requires Event(Dc(c), Open) !in tasks && c in openPosted
    requires y.openedBy == sessions[s].openedBy + {c} && y.members == sessions[s].members
    ensures OpensOnce(sessions[s := y], channels, tasks, openPosted)
  {
    var sessions' := sessions[s := y];
    forall d | d in channels ensures IsMember(d, sessions', channels) {
      assert IsMember(d, sessions, channels);
    }
    forall i: nat | i < |tasks| ensures OpensFirst(i, sessions', tasks, openPosted) {
      assert OpensFirst(i, sessions, tasks, openPosted);
      if tasks[i].Event? && tasks[i].source.Dc? && tasks[i].what.Open? {
        assert tasks[i] == Event(Dc(tasks[i].source.c), Open);
      }
    }
  }

  function PingTimers(timers: Timers, next: nat, s: nat, o: Outcome): Timers {
    if o.timer then timers[next := Ping(s)] else timers
  }

  function PingLedger(ledger: Ledger, s: nat, active: bool, next: nat, o: Outcome): Ledger {
    if o.timer then Pinging(ledger, s, active, next) else ledger
  }

  function Pinged(st: State, s: nat, o: Outcome): State
    requires s in st.sessions
  {
    st.(timers := PingTimers(st.timers, st.next, s, o),
        ledger := PingLedger(st.ledger, s, st.sessions[s].active, st.next, o), next := st.next + B(o.timer))
  }

  function PingOf(st: State, o: Outcome): Option<nat> {
    if o.timer then Some(st.next) else None
  }

  lemma StartPingIs(st: State, s: nat, y: Session, o: Outcome)
    requires s in st.sessions && y.active == st.sessions[s].active
    ensures StartPing(SetSession(st, s, y), s, o) == SetSession(Pinged(st, s, o), s, y.(ping := PingOf(st, o)))
  {
    assert st.sessions[s := y][s := y.(ping := PingOf(st, o))] == st.sessions[s := y.(ping := PingOf(st, o))];
  }

  lemma StartPingKeeps(st: State, s: nat, o: Outcome, hand: multiset<Ref>, busy: set<Ref>)
    requires Inv(st, hand, busy) && s in st.sessions && st.sessions[s].ping.None? && st.sessions[s].allOpened
    ensures Inv(StartPing(st, s, o), hand, busy)
  {
    var st', y := Pinged(st, s, o), st.sessions[s].(ping := PingOf(st, o));
    assert SetSession(st, s, st.sessions[s]) == st;
    StartPingIs(st, s, st.sessions[s], o);
    PingTimed(st, s, o, hand, busy);
    PingStarted(st, s, o, hand, busy);
    TimersChange(st, SetSession(st', s, y), s, hand, busy);
  }

  /** A ping timer of a closed session is entered as late. */
  lemma PingEntered(sessions: Sessions, timers: Timers, late: map<nat, nat>, s: nat, y: Session, t: nat, busy: set<Ref>)
    requires Latent(sessions, timers, late, busy) && Timed(sessions, timers) && s in sessions && t !in timers
    requires sessions[s].ping.None? && y.active == sessions[s].active
    ensures Latent(sessions[s := y], timers[t := Ping(s)], if y.active then late else late[s := t], busy)
  {
    var sessions', timers', late' := sessions[s := y], timers[t := Ping(s)], if y.active then late else late[s := t];
    forall u | u in timers' ensures PingLate(u, sessions', timers', late', busy) {
      if u != t { assert PingLate(u, sessions, timers, late, busy) && TimerOwned(u, sessions, timers); }
    }
    forall z | z in late' ensures LateLives(z, sessions', timers', late') {
      if z in late { assert LateLives(z, sessions, timers, late); }
    }
  }

  lemma PingStarted(st: State, s: nat, o: Outcome, hand: multiset<Ref>, busy: set<Ref>)
    requires Inv(st, hand, busy) && s in st.sessions && st.sessions[s].ping.None?
    ensures
      var st' := Pinged(st, s, o);
      Latent(st.sessions[s := st.sessions[s].(ping := PingOf(st, o))], st'.timers, st'.ledger.late, busy)
  {
    var y := st.sessions[s].(ping := PingOf(st, o));
    Unused(st, st.next, hand, busy);
    assert Holds(Clocks, st, hand, busy) && Holds(Pings, st, hand, busy);
    PingEntered(st.sessions, st.timers, st.ledger.late, s, y, st.next, busy);
    SameLatent(st.sessions, st.timers, st.ledger.late, s, y, busy, busy);
  }

  lemma PingTimed(st: State, s: nat, o: Outcome, hand: multiset<Ref>, busy: set<Ref>)
    requires Inv(st, hand, busy) && s in st.sessions && st.sessions[s].ping.None?
    ensures Timed(st.sessions[s := st.sessions[s].(ping := PingOf(st, o))], Pinged(st, s, o).timers)
  {
    var y, timers' := st.sessions[s].(ping := PingOf(st, o)), Pinged(st, s, o).timers;
    SessionFacts(st, s, hand, busy);
    Unused(st, st.next, hand, busy);
    assert Holds(Clocks, st, hand, busy);
    SessionTimed(st.sessions, st.timers, timers', s, y);
  }

  lemma AllOpenedIs(st: State, s: nat, c: nat, o: Outcome)
    requires s in st.sessions && st.sessions[s].openCount == |st.sessions[s].channels|
    ensures
      var y := SeesOpen(st.sessions[s], c).(allOpened := true, ping := PingOf(st, o));
      var st' := SetSession(Pinged(st, s, o), s, y);
      OnChannelOpened(st, s, c, o) == if st.sessions[s].readyReceived then OnReady(st', s) else st'
  {
    var x := SeesOpen(st.sessions[s], c);
    assert OnChannelOpened(st, s, c, o) == OnAllOpened(SetSession(st, s, x), s, o);
    StartPingIs(st, s, x, o);
    OpenedOver(Pinged(st, s, o), s, x.(ping := PingOf(st, o)));
  }

  lemma OpenedOver(st: State, s: nat, y: Session)
    requires s in st.sessions
    ensures SetSession(SetSession(st, s, y), s, y.(allOpened := true)) == SetSession(st, s, y.(allOpened := true))
  {
    assert st.sessions[s := y][s := y.(allOpened := true)] == st.sessions[s := y.(allOpened := true)];
  }

  lemma LastOpenWaits(st: State, s: nat, c: nat, o: Outcome)
    requires s in st.sessions && st.sessions[s].openCount == |st.sessions[s].channels| && !st.sessions[s].readyReceived
    ensures OnChannelOpened(st, s, c, o)
            == StartPing(SetSession(st, s, SeesOpen(st.sessions[s], c).(allOpened := true)), s, o)
  {
    AllOpenedIs(st, s, c, o);
    StartPingIs(st, s, SeesOpen(st.sessions[s], c).(allOpened := true), o);
  }

  function Without(timers: Timers, t: Option<nat>): Timers {
    if t.Some? then timers - {t.value} else timers
  }

  lemma UnscheduleTimeoutIs(st: State, s: nat)
    requires s in st.sessions
    ensures UnscheduleTimeout(st, s)
            == st.(timers := Without(st.timers, st.sessions[s].timeout),
                   sessions := st.sessions[s := st.sessions[s].(timeout := None)])
  {
    if st.sessions[s].timeout.None? { assert st.sessions[s := st.sessions[s].(timeout := None)] == st.sessions; }
  }

  lemma TimeoutPinged(st: State, s: nat, o: Outcome)
    requires s in st.sessions && st.sessions[s].timeout != Some(st.next)
    ensures UnscheduleTimeout(Pinged(st, s, o), s) == Pinged(UnscheduleTimeout(st, s), s, o)
  {
    var t := st.sessions[s].timeout;
    UnscheduleTimeoutIs(st, s);
    UnscheduleTimeoutIs(Pinged(st, s, o), s);
    assert Without(PingTimers(st.timers, st.next, s, o), t) == PingTimers(Without(st.timers, t), st.next, s, o);
  }

  lemma PingedRequests(st: State, s: nat, o: Outcome)
    requires s in st.sessions
    ensures Requests(Pinged(st, s, o), s) == Requests(st, s)
    ensures Pinged(st.(exec := Requests(st, s)), s, o) == Pinged(st, s, o).(exec := Requests(st, s))
  {
  }

  lemma AskIs(st: State, s: nat, y: Session, z: Session)
    requires z == y.(ref := y.ref + B(ExecutorUp(st)), openings := y.openings + 1)
    ensures Ask(st, s, y) == SetSession(st.(exec := Requests(st, s)), s, z)
  {
  }

  lemma AskPinged(st: State, s: nat, y: Session, o: Outcome)
    requires s in st.sessions && y.active == st.sessions[s].active
    ensures StartPing(Ask(st, s, y), s, o) == Ask(Pinged(st, s, o), s, y.(ping := PingOf(st, o)))
  {
    var z := y.(ref := y.ref + B(ExecutorUp(st)), openings := y.openings + 1);
    AskIs(st, s, y, z);
    StartPingIs(st.(exec := Requests(st, s)), s, z, o);
    PingedRequests(st, s, o);
    AskIs(Pinged(st, s, o), s, y.(ping := PingOf(st, o)), z.(ping := PingOf(st, o)));
  }

  lemma FieldsCommute(y: Session, ping: Option<nat>)
    ensures y.(ping := ping).(timeout := None) == y.(timeout := None).(ping := ping)
  {
  }

  /** The timeout is stopped before the native session is asked for, and the ping started. */
  lemma PingedAsks(st: State, s: nat, y: Session, o: Outcome)
    requires s in st.sessions && y.active == st.sessions[s].active && y.timeout == st.sessions[s].timeout
    requires y.native.None? && y.timeout != Some(st.next)
    ensures OnReady(SetSession(Pinged(st, s, o), s, y.(ping := PingOf(st, o))), s)
            == StartPing(Ask(UnscheduleTimeout(st, s), s, y.(timeout := None)), s, o)
  {
    FieldsCommute(y, PingOf(st, o));
    OnReadyAsks(Pinged(st, s, o), s, y.(ping := PingOf(st, o)));
    TimeoutPinged(st, s, o);
    UnscheduleTimeoutIs(st, s);
    AskPinged(UnscheduleTimeout(st, s), s, y.(timeout := None), o);
  }

  lemma LastOpenAsks(st: State, s: nat, c: nat, o: Outcome)
    requires s in st.sessions && st.sessions[s].openCount == |st.sessions[s].channels| && st.sessions[s].readyReceived
    requires st.sessions[s].native.None? && st.sessions[s].timeout != Some(st.next)
    ensures
      var y := SeesOpen(st.sessions[s], c).(allOpened := true, timeout := None);
      OnChannelOpened(st, s, c, o) == StartPing(Ask(UnscheduleTimeout(st, s), s, y), s, o)
  {
    AllOpenedIs(st, s, c, o);
    PingedAsks(st, s, SeesOpen(st.sessions[s], c).(allOpened := true), o);
  }

  /** The open event of channel c is being handled. */
  ghost predicate OpenAtHand(st: State, s: nat, c: nat) {
    && c in st.channels && st.channels[c].session == s && s in st.sessions
    && Event(Dc(c), Open) !in st.tasks && c in st.openPosted && c !in st.sessions[s].openedBy
  }

  lemma OpenFacts(st: State, s: nat, c: nat, y: Session, hand: multiset<Ref>, busy: set<Ref>)
    requires Inv(st, hand, busy) && OpenAtHand(st, s, c)
    requires y.openedBy == st.sessions[s].openedBy + {c} && y.members == st.sessions[s].members
    ensures Progress(st.sessions[s], QueueRefs(st.tasks, st.exec)[SessionRef(s)]) && c in st.sessions[s].members
    ensures st.sessions[s].timeout != Some(st.next)
    ensures OpensOnce(st.sessions[s := y], st.channels, st.tasks, st.openPosted) && Usable(st.exec, st.destroyed)
  {
    Read(st, hand, busy);
    SessionFacts(st, s, hand, busy);
    ChannelFacts(st, c, hand, busy);
    Unused(st, st.next, hand, busy);
    OpenRecorded(st.sessions, st.channels, st.tasks, st.openPosted, s, y, c);
  }

  lemma LastOpenAsksKeeps(st: State, s: nat, c: nat, o: Outcome, hand: multiset<Ref>, busy: set<Ref>)
    requires Inv(st, hand, busy) && OpenAtHand(st, s, c)
    requires st.sessions[s].openCount == |st.sessions[s].channels| && st.sessions[s].readyReceived
    ensures Inv(OnChannelOpened(st, s, c, o), hand, busy)
  {
    var x := st.sessions[s];
    var st1, y := UnscheduleTimeout(st, s), SeesOpen(x, c).(allOpened := true, timeout := None);
    OpenFacts(st, s, c, SeesOpen(x, c), hand, busy);
    OpenCounted(x, c, QueueRefs(st.tasks, st.exec)[SessionRef(s)], B(ExecutorUp(st)));
    UnscheduleTimeoutKeeps(st, s, hand, busy);
    UnscheduleTimeoutIs(st, s);
    OpenFacts(st1, s, c, y, hand, busy);
    ProgressUncounted(SeesOpen(x, c).(allOpened := true, openings := 1), y.(openings := 1),
                      QueueRefs(st.tasks, st.exec)[SessionRef(s)] + B(ExecutorUp(st)));
    AskKeeps(st1, s, y, hand, busy);
    StartPingKeeps(Ask(st1, s, y), s, o, hand, busy);
    LastOpenAsks(st, s, c, o);
  }

  lemma LastOpenWaitsKeeps(st: State, s: nat, c: nat, o: Outcome, hand: multiset<Ref>, busy: set<Ref>)
    requires Inv(st, hand, busy) && OpenAtHand(st, s, c)
    requires st.sessions[s].openCount == |st.sessions[s].channels| && !st.sessions[s].readyReceived
    ensures Inv(OnChannelOpened(st, s, c, o), hand, busy)
  {
    var x := st.sessions[s];
    var y := SeesOpen(x, c).(allOpened := true);
    OpenFacts(st, s, c, y, hand, busy);
    OpenCounted(x, c, QueueRefs(st.tasks, st.exec)[SessionRef(s)], 0);
    StepsKeeps(st, SetSession(st, s, y), s, 0, hand, busy);
    StartPingKeeps(SetSession(st, s, y), s, o, hand, busy);
    LastOpenWaits(st, s, c, o);
  }

  lemma OnChannelOpenedKeeps(st: State, s: nat, c: nat, o: Outcome, hand: multiset<Ref>, busy: set<Ref>)
    requires Inv(st, hand, busy) && OpenAtHand(st, s, c)
    ensures Inv(OnChannelOpened(st, s, c, o), hand, busy)
  {
    var x := st.sessions[s];
    var last := x.openCount == |x.channels|;
    if last && x.readyReceived {
      LastOpenAsksKeeps(st, s, c, o, hand, busy);
    } else {
      OpenFacts(st, s, c, SeesOpen(x, c), hand, busy);
      OpenCounted(x, c, QueueRefs(st.tasks, st.exec)[SessionRef(s)], 0);
      if last {
        LastOpenWaitsKeeps(st, s, c, o, hand, busy);
      } else {
        StepsKeeps(st, SetSession(st, s, SeesOpen(x, c)), s, 0, hand, busy);
      }
    }
  }
}
