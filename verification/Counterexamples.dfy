/** Runs of the program into each of its hazards, and one in which a message gets through. */
module Counterexamples {
  import opened Wrappers
  import opened Model
  import Frames
  import opened Lifecycle
  import opened Invariants
  import opened Dwindling
  import opened Closing
  import Opening
  import opened Handshaking
  import opened Connecting
  import opened Steps
  import opened Theorems

  /** Everything outside answers well, and one channel can be acquired. */
  const Well: Outcome := Outcome(true, true, 1, true, true, Some(0), true)

  /** A socket without data channels is listening, and one client has authenticated: its
      session is 2, and its system channel 5. */
  const Session2: Session :=
    Session(4, true, true, true, true, false, false, 1, [], Some(5), Some(4), 0, None, None, None, 1, 0, {5}, {})

  const Greeted: State :=
    State(map[1 := Socket(3, true, true, 0, [Node(4, 2)], 0)], map[2 := Session2],
          map[5 := Channel(2, true, true, false, SYSTEM_INDEX, 2, false)], map[0 := 1], [], [], map[], map[],
          map[Wss(1) := true, Ws(2) := true, Pc(2) := true, Dc(5) := true], {0}, {}, {}, multiset{}, multiset{},
          Ledger({SocketRef(1), SessionRef(2), ChannelRef(5)}, multiset{}, {}, map[]), 6, false)

  const AuthFrame: seq<char> := Frames.AUTH + [Frames.SEPARATOR] + "x" + [Frames.NUL]

  const Greeting: seq<Step> :=
    [Listen(0), LoopStep(Well)] + [Post(Wss(1), Client), LoopStep(Well)]
    + [Post(Ws(2), Message(AuthFrame)), LoopStep(Well)]

  function After(st: State, step: Step): State {
    if Enabled(st, step) then Next(st, step) else st
  }

  lemma RunOn(steps: seq<Step>, step: Step)
    ensures Run(steps + [step]) == After(Run(steps), step)
  {
    assert (steps + [step])[..|steps|] == steps;
  }

  /** Something is posted, and the loop handles it. */
  function Turn(st: State, post: Step, o: Outcome): State {
    After(After(st, post), LoopStep(o))
  }

  lemma TurnOn(steps: seq<Step>, post: Step, o: Outcome)
    ensures Run(steps + [post, LoopStep(o)]) == Turn(Run(steps), post, o)
  {
    RunOn(steps, post);
    RunOn(steps + [post], LoopStep(o));
    assert steps + [post, LoopStep(o)] == steps + [post] + [LoopStep(o)];
  }

  lemma EventTurn(st: State, source: Rtc, what: RtcEvent, o: Outcome)
    requires st.tasks == [] && Enabled(st, Post(source, what))
    ensures Turn(st, Post(source, what), o) == RtcTask(PostEvent(st, source, what).(tasks := []), source, what, o)
  {
    var st1 := PostEvent(st, source, what);
    assert st1.tasks == [Event(source, what)] && st1.tasks[1..] == [];
  }

  /** A socket with so many data channels listens. */
  function ListenedWith(modes: nat): State {
    Initial.(sockets := map[1 := Socket(2, true, true, modes, [], 0)], socketMap := map[0 := 1],
             rtc := map[Wss(1) := true], listening := {0},
             ledger := Ledger({SocketRef(1)}, multiset{}, {}, map[]), next := 2)
  }

  lemma ListeningRun(modes: nat)
    requires modes <= SYSTEM_INDEX
    ensures Turn(Initial, Listen(modes), Well) == ListenedWith(modes)
  {
    assert After(Initial, Listen(modes)) == Initial.(tasks := [Listening(0, modes)], listening := {0}, next := 1);
  }

  function JoinedWith(modes: nat): State {
    ListenedWith(modes).(sockets := map[1 := Socket(3, true, true, modes, [Node(4, 2)], 0)],
                         sessions := map[2 := NewSession(1, 3).(entry := Some(4))], timers := map[3 := Timeout(2)],
                         rtc := map[Wss(1) := true, Ws(2) := true, Pc(2) := true],
                         ledger := Ledger({SocketRef(1), SessionRef(2)}, multiset{}, {}, map[]), next := 5)
  }

  const Joined: State := JoinedWith(0)

  lemma ClientRun(modes: nat)
    ensures Turn(ListenedWith(modes), Post(Wss(1), Client), Well) == JoinedWith(modes)
  {
    var st0, st2 := ListenedWith(modes), JoinedWith(modes);
    EventTurn(st0, Wss(1), Client, Well);
    assert PostEvent(st0, Wss(1), Client).(tasks := []) == st0;
    var st1 := AcquireSession(st0, 1);
    assert st1 == st0.(sockets := map[1 := Socket(3, true, true, modes, [], 0)],
                       sessions := map[2 := NewSession(1, 3)], timers := map[3 := Timeout(2)],
                       rtc := st2.rtc, ledger := st2.ledger, next := 4);
    assert st1.sockets[1].sessions + [Node(4, 2)] == [Node(4, 2)];
    assert st1.sockets[1 := Socket(3, true, true, modes, [Node(4, 2)], 0)] == st2.sockets;
    assert st1.sessions[2 := NewSession(1, 3).(entry := Some(4))] == st2.sessions;
  }

  lemma AuthRun()
    ensures Turn(Joined, Post(Ws(2), Message(AuthFrame)), Well) == Greeted
  {
    EventTurn(Joined, Ws(2), Message(AuthFrame), Well);
    Frames.AuthRoundTrip("x");
    assert PostEvent(Joined, Ws(2), Message(AuthFrame)).(tasks := []) == Joined;
    AuthResultRun();
  }

  lemma AuthResultRun()
    ensures WsAuthResult(Joined, 2, Some(0), Well) == Greeted
  {
    var x := NewSession(1, 3).(entry := Some(4), authenticated := true, authResults := 1);
    assert Joined.sessions[2 := x] == map[2 := x];
    Opening.FirstResult(Joined, 2, Some(0), Well);
    ResultRun(Joined.(sessions := map[2 := x]), x);
  }

  lemma ResultRun(st: State, x: Session)
    requires x == NewSession(1, 3).(entry := Some(4), authenticated := true, authResults := 1)
    requires st == Joined.(sessions := map[2 := x])
    ensures OnAuthResult(st, 2, Some(0), Well) == Greeted
  {
    var st1 := Joined.(sessions := map[2 := x.(timeout := None)], timers := map[]);
    assert UnscheduleTimeout(st, 2) == st1;
    NoSlots(st1, 2, x.(timeout := None));
    SystemRun(st1, x.(timeout := None));
  }

  lemma NoSlots(st: State, s: nat, x: Session)
    requires st.sessions == map[s := x] && x.channels == [] && x.socket in st.sockets && st.sockets[x.socket].modes == 0
    ensures CreateChannels(st, s, Well) == Creation(AddSystemChannel(st, s), true)
  {
    var none: seq<Option<nat>> := seq(0, _ => None);
    assert none == [];
    assert x.(channels := none) == x;
    assert st.sessions[s := x] == st.sessions;
  }

  lemma SystemRun(st: State, x: Session)
    requires st == Joined.(sessions := map[2 := x], timers := map[])
    requires x == NewSession(1, 3).(entry := Some(4), authenticated := true, authResults := 1, timeout := None)
    ensures AddSystemChannel(st, 2) == Greeted
  {
    var y := x.(ref := 4, members := {5});
    var st1 := AcquireChannel(st, 2, SYSTEM_INDEX);
    assert x.members + {5} == {5};
    assert st1 == Greeted.(sessions := map[2 := y]);
    assert y.(system := Some(5)) == Session2;
    assert st1.sessions[2 := Session2] == Greeted.sessions;
  }

  lemma GreetingRun()
    ensures Run(Greeting) == Greeted
  {
    ListeningRun(0);
    ClientRun(0);
    AuthRun();
    assert Run([]) == Initial;
    TurnOn([], Listen(0), Well);
    assert [] + [Listen(0), LoopStep(Well)] == [Listen(0), LoopStep(Well)];
    TurnOn([Listen(0), LoopStep(Well)], Post(Wss(1), Client), Well);
    TurnOn([Listen(0), LoopStep(Well)] + [Post(Wss(1), Client), LoopStep(Well)], Post(Ws(2), Message(AuthFrame)), Well);
  }

  /** The run comes to this step without a fault; the step is a hazard, and faults. */
  ghost predicate RunsInto(steps: seq<Step>, step: Step) {
    && !Run(steps).fault && Enabled(Run(steps), step) && Hazard(Run(steps), step)
    && Run(steps + [step]).fault
  }

  lemma HazardRun(steps: seq<Step>, step: Step)
    requires Enabled(Run(steps), step) && Hazard(Run(steps), step)
    ensures RunsInto(steps, step)
  {
    RunOn(steps, step);
    RunInvariant(steps);
    NextKeeps(Run(steps), step);
  }

  /** An event is posted to the idle loop, and handling it is a hazard. */
  lemma FaultTurn(steps: seq<Step>, source: Rtc, what: RtcEvent, o: Outcome)
    requires
      var st := Run(steps);
      st.tasks == [] && Enabled(st, Post(source, what)) && EventHazard(st, source, what)
    ensures
      var st := Run(steps + [Post(source, what)]);
      && RunsInto(steps + [Post(source, what)], LoopStep(o))
      && st.tasks == [Event(source, what)] && EventHazard(st, source, what)
  {
    RunOn(steps, Post(source, what));
    var st1 := Run(steps + [Post(source, what)]);
    assert st1.tasks == [Event(source, what)];
    HazardRun(steps + [Post(source, what)], LoopStep(o));
  }

  /** A peer that sends a bare DESC makes the parser read past its frame. */
  lemma BareDescription()
    ensures
      var what := Message(Frames.DESCRIPTION + [Frames.NUL]);
      var steps := Greeting + [Post(Ws(2), what)];
      RunsInto(steps, LoopStep(Well)) && Run(steps).tasks == [Event(Ws(2), what)]
  {
    GreetingRun();
    Frames.TextOverread(true, Frames.DESCRIPTION);
    FaultTurn(Greeting, Ws(2), Message(Frames.DESCRIPTION + [Frames.NUL]), Well);
  }

  /** So does any text of less than four characters. */
  lemma ShortFrame(text: seq<char>)
    requires |text| < 4
    ensures
      var what := Message(text + [Frames.NUL]);
      var steps := Greeting + [Post(Ws(2), what)];
      RunsInto(steps, LoopStep(Well)) && Run(steps).tasks == [Event(Ws(2), what)]
  {
    GreetingRun();
    Frames.TextOverread(true, text);
    FaultTurn(Greeting, Ws(2), Message(text + [Frames.NUL]), Well);
  }

  // ----- The system channel goes first -------------------------------------------------

  const System5: Channel := Channel(2, true, true, false, SYSTEM_INDEX, 2, false)
  const Closed5: Channel := Channel(1, false, false, false, SYSTEM_INDEX, 2, false)

  function ClosedSession(x: Session): Session {
    x.(active := false, wsActive := false, pcActive := false, ping := None, entry := None, native := None)
  }

  /** The session closes, and with it its system channel. */
  lemma CloseRun(st: State, x: Session, z: Channel)
    requires st.sessions == map[2 := x] && st.channels == map[5 := z]
    requires z == System5.(dcReceive := z.dcReceive)
    requires st.sockets == map[1 := Socket(3, true, true, 0, [Node(4, 2)], 0)]
    requires x.active && x.channels == [] && x.system == Some(5) && x.entry == Some(4)
    requires x.socket == 1 && x.ref > 1 && x.ping.None?
    ensures SessionClose(st, 2)
            == st.(sessions := map[2 := ClosedSession(x).(ref := x.ref - 1)],
                   channels := map[5 := Closed5.(dcReceive := z.dcReceive)],
                   sockets := map[1 := Socket(3, true, true, 0, [], 0)], exec := ExecGiven(st, x.native),
                   lost := LostGiven(st, x.native))
  {
    var y := x.(active := false);
    ChannelsRun(st, x, z);
    PartsRun(st.(sessions := map[2 := y], channels := map[5 := Closed5.(dcReceive := z.dcReceive)]), y);
    assert ClosedSession(y) == ClosedSession(x);
  }

  lemma ChannelsRun(st: State, x: Session, z: Channel)
    requires st.sessions == map[2 := x] && st.channels == map[5 := z] && z == System5.(dcReceive := z.dcReceive)
    requires x.channels == [] && x.system == Some(5) && x.ping.None?
    ensures CloseSlot(CloseSlots(Deactivate(st, 2), x.channels), x.system)
            == st.(sessions := map[2 := x.(active := false)],
                   channels := map[5 := Closed5.(dcReceive := z.dcReceive)])
  {
    var st1 := st.(sessions := map[2 := x.(active := false)]);
    DeactivateRun(st, x);
    assert CloseSlots(st1, x.channels) == st1;
    ChannelRun(st1, z);
  }

  lemma DeactivateRun(st: State, x: Session)
    requires st.sessions == map[2 := x] && x.ping.None?
    ensures Deactivate(st, 2) == st.(sessions := map[2 := x.(active := false)])
  {
    assert st.sessions[2 := x.(active := false)] == map[2 := x.(active := false)];
  }

  lemma ChannelRun(st: State, z: Channel)
    requires st.channels == map[5 := z] && z == System5.(dcReceive := z.dcReceive)
    ensures ChannelClose(st, 5) == st.(channels := map[5 := Closed5.(dcReceive := z.dcReceive)])
  {
    var y := z.(active := false, dcActive := false);
    assert st.channels[5 := y] == map[5 := y];
    assert map[5 := y][5 := y.(ref := 1)] == map[5 := y.(ref := 1)];
  }

  function ExecGiven(st: State, n: Option<nat>): seq<Command> {
    if n.Some? && ExecutorUp(st) then st.exec + [Destroy(n.value)] else st.exec
  }

  function LostGiven(st: State, n: Option<nat>): multiset<nat> {
    if n.Some? && !ExecutorUp(st) then st.lost + multiset{n.value} else st.lost
  }

  /** Giving up the native session touches the record, and the executor or what is lost. */
  lemma GiveUpRun(st: State, x: Session)
    requires st.sessions == map[2 := x]
    ensures DestroyNative(st, 2)
            == st.(sessions := map[2 := x.(native := None)], exec := ExecGiven(st, x.native),
                   lost := LostGiven(st, x.native))
  {
    assert st.sessions[2 := x.(native := None)] == map[2 := x.(native := None)];
    if x.native.None? {
      assert x.(native := None) == x;
    } else if ExecutorUp(st) {
      DestroyQueued(st, 2);
    } else {
      DestroyRefused(st, 2);
    }
  }

  lemma PartsRun(st: State, x: Session)
    requires st.sessions == map[2 := x] && st.sockets == map[1 := Socket(3, true, true, 0, [Node(4, 2)], 0)]
    requires !x.active && x.entry == Some(4) && x.socket == 1 && x.ref > 1 && x.ping.None?
    ensures UnrefSession(CloseParts(st, 2), 2)
            == st.(sessions := map[2 := ClosedSession(x).(ref := x.ref - 1)],
                   sockets := map[1 := Socket(3, true, true, 0, [], 0)], exec := ExecGiven(st, x.native),
                   lost := LostGiven(st, x.native))
  {
    PartsClosedRun(st, x);
    LastRef(CloseParts(st, 2), ClosedSession(x));
  }

  lemma PartsClosedRun(st: State, x: Session)
    requires st.sessions == map[2 := x] && st.sockets == map[1 := Socket(3, true, true, 0, [Node(4, 2)], 0)]
    requires !x.active && x.entry == Some(4) && x.socket == 1 && x.ping.None?
    ensures CloseParts(st, 2)
            == st.(sessions := map[2 := ClosedSession(x)], sockets := map[1 := Socket(3, true, true, 0, [], 0)],
                   exec := ExecGiven(st, x.native), lost := LostGiven(st, x.native))
  {
    var y := x.(wsActive := false, pcActive := false);
    var z := y.(native := None);
    var st0 := st.(sessions := map[2 := y]);
    GiveUpRun(st0, y);
    PartsAre(st, x, st0);
    DelistRun(DestroyNative(st0, 2), z);
    ClosedIs(x);
  }

  lemma PartsAre(st: State, x: Session, st0: State)
    requires st.sessions == map[2 := x] && st0 == st.(sessions := map[2 := x.(wsActive := false, pcActive := false)])
    ensures CloseParts(st, 2) == RemoveSession(DestroyNative(st0, 2), 2)
  {
    assert SetSession(st, 2, x.(wsActive := false, pcActive := false)) == st0;
  }

  lemma ClosedIs(x: Session)
    requires !x.active && x.ping.None?
    ensures x.(wsActive := false, pcActive := false).(native := None).(entry := None) == ClosedSession(x)
  {
  }

  lemma DelistRun(st: State, y: Session)
    requires st.sessions == map[2 := y] && st.sockets == map[1 := Socket(3, true, true, 0, [Node(4, 2)], 0)]
    requires y.entry == Some(4) && y.socket == 1
    ensures RemoveSession(st, 2)
            == st.(sessions := map[2 := y.(entry := None)], sockets := map[1 := Socket(3, true, true, 0, [], 0)])
  {
    assert RemoveNode([Node(4, 2)], Node(4, 2)) == [];
    assert st.sockets[1 := Socket(3, true, true, 0, [], 0)] == map[1 := Socket(3, true, true, 0, [], 0)];
    assert st.sessions[2 := y.(entry := None)] == map[2 := y.(entry := None)];
  }

  lemma LastRef(st: State, z: Session)
    requires st.sessions == map[2 := z] && z.ref > 1
    ensures UnrefSession(st, 2) == st.(sessions := map[2 := z.(ref := z.ref - 1)])
  {
    assert st.sessions[2 := z.(ref := z.ref - 1)] == map[2 := z.(ref := z.ref - 1)];
  }

  /** Its DC closes, and the system channel is released. */
  lemma ReleaseRun(st: State, y: Session, z: Channel)
    requires st.sessions == map[2 := y] && st.channels == map[5 := z] && y.channels == [] && y.ref > 1
    requires z.ref == 1 && z.index == SYSTEM_INDEX && z.session == 2
    ensures DcEvent(st, 5, Closed, Well)
            == st.(sessions := map[2 := y.(ref := y.ref - 1)], channels := map[],
                   ledger := Released(st.ledger, ChannelRef(5)))
  {
    assert y.(channels := SetSlot(y.channels, SYSTEM_INDEX, None)) == y;
    assert st.sessions[2 := y] == st.sessions;
    assert RemoveChannel(st, 2, SYSTEM_INDEX) == st;
    assert st.channels - {5} == map[];
    LastRef(st.(channels := map[], ledger := Released(st.ledger, ChannelRef(5))), y);
  }

  /** The client misnames a data channel, and its session is closed. */
  lemma CloseTurn(st: State, x: Session)
    requires st.tasks == [] && !st.fault && Pc(2) in st.rtc && st.rtc[Pc(2)]
    requires st.sessions == map[2 := x] && st.channels == map[5 := System5]
    requires st.sockets == map[1 := Socket(3, true, true, 0, [Node(4, 2)], 0)]
    requires x.active && x.channels == [] && x.system == Some(5) && x.native.None? && x.entry == Some(4)
    requires x.socket == 1 && x.ref > 1 && x.ping.None?
    ensures Turn(st, Post(Pc(2), DataChannel(false, 0)), Well)
            == st.(sessions := map[2 := ClosedSession(x).(ref := x.ref - 1)], channels := map[5 := Closed5],
                   sockets := map[1 := Socket(3, true, true, 0, [], 0)])
  {
    MisnamedTurn(st);
    CloseRun(st, x, System5);
  }

  lemma MisnamedTurn(st: State)
    requires st.tasks == [] && !st.fault && Pc(2) in st.rtc && st.rtc[Pc(2)] && 2 in st.sessions
    ensures Turn(st, Post(Pc(2), DataChannel(false, 0)), Well) == SessionClose(st, 2)
  {
    EventTurn(st, Pc(2), DataChannel(false, 0), Well);
    PlainlyPosted(st, Pc(2), DataChannel(false, 0));
    MisnamedEvent(st);
  }

  lemma MisnamedEvent(st: State)
    requires 2 in st.sessions
    ensures RtcTask(st, Pc(2), DataChannel(false, 0), Well) == SessionClose(st, 2)
  {
    assert RtcTask(st, Pc(2), DataChannel(false, 0), Well) == PcEvent(st, 2, DataChannel(false, 0));
  }

  /** What posting an event leaves behind once the event was taken. */
  lemma PlainlyPosted(st: State, source: Rtc, what: RtcEvent)
    requires st.tasks == [] && source in st.rtc && !what.Closed? && !what.Open?
    ensures PostEvent(st, source, what).(tasks := []) == st
  {
  }

  lemma ReleaseTurn(st: State, y: Session)
    requires st.tasks == [] && !st.fault && Dc(5) in st.rtc && st.rtc[Dc(5)]
    requires st.sessions == map[2 := y] && st.channels == map[5 := Closed5] && y.channels == [] && y.ref > 1
    ensures Turn(st, Post(Dc(5), Closed), Well)
            == st.(sessions := map[2 := y.(ref := y.ref - 1)], channels := map[], rtc := st.rtc - {Dc(5)},
                   ledger := Released(st.ledger, ChannelRef(5)))
  {
    EventTurn(st, Dc(5), Closed, Well);
    assert st.rtc[Dc(5) := false] - {Dc(5)} == st.rtc - {Dc(5)};
    ReleaseRun(st.(rtc := st.rtc - {Dc(5)}), y, Closed5);
  }

  /** The only channel reports that it is open. */
  lemma OpenRun(st: State, x: Session, o: Outcome)
    requires st.sessions == map[2 := x] && x.channels == [] && x.openCount == 0 && x.openedBy == {} && !x.readyReceived
    ensures OnChannelOpened(st, 2, 5, o) == Pinged(st, 2, o).(sessions := map[2 := OpenedSession(x, PingOf(st, o))])
  {
    var y, st1 := OpenedSession(x, PingOf(st, o)), Pinged(st, 2, o);
    SeesOnly(x, PingOf(st, o));
    assert st1.sessions[2 := y] == map[2 := y];
    AllOpenedIs(st, 2, 5, o);
    assert OnChannelOpened(st, 2, 5, o) == SetSession(st1, 2, y);
  }

  lemma SeesOnly(x: Session, ping: Option<nat>)
    requires x.openCount == 0 && x.openedBy == {}
    ensures SeesOpen(x, 5).(allOpened := true, ping := ping) == OpenedSession(x, ping)
  {
    assert x.openedBy + {5} == {5};
  }

  function OpenedSession(x: Session, ping: Option<nat>): Session {
    x.(openCount := 1, openedBy := {5}, allOpened := true, ping := ping)
  }

  lemma OpenTurn(st: State, x: Session, o: Outcome)
    requires st.tasks == [] && !st.fault && Dc(5) in st.rtc && st.rtc[Dc(5)] && st.openPosted == {}
    requires st.sessions == map[2 := x] && 5 in st.channels && st.channels[5].session == 2
    requires x.channels == [] && x.openCount == 0 && x.openedBy == {} && !x.readyReceived
    ensures Turn(st, Post(Dc(5), Open), o)
            == Pinged(st.(openPosted := {5}), 2, o).(sessions := map[2 := OpenedSession(x, PingOf(st, o))])
  {
    EventTurn(st, Dc(5), Open, o);
    var st1 := st.(openPosted := {5});
    assert PostEvent(st, Dc(5), Open).(tasks := []) == st1;
    OpenRun(st1, x, o);
  }

  // ----- A ping through a released system channel --------------------------------------

  const Shut: State :=
    Greeted.(sessions := map[2 := ClosedSession(Session2).(ref := 3)], channels := map[5 := Closed5],
             sockets := map[1 := Socket(3, true, true, 0, [], 0)])

  const Shutting: seq<Step> := Greeting + [Post(Pc(2), DataChannel(false, 0)), LoopStep(Well)]

  lemma ShuttingRun()
    ensures Run(Shutting) == Shut
  {
    GreetingRun();
    CloseTurn(Greeted, Session2);
    TurnOn(Greeting, Post(Pc(2), DataChannel(false, 0)), Well);
  }

  const Pinged2: State :=
    Shut.(sessions := map[2 := OpenedSession(ClosedSession(Session2).(ref := 3), Some(6))], timers := map[6 := Ping(2)],
          openPosted := {5}, ledger := Shut.ledger.(late := map[2 := 6]), next := 7)

  lemma PingingRun()
    ensures Run(Shutting + [Post(Dc(5), Open), LoopStep(Well)]) == Pinged2
  {
    ShuttingRun();
    OpenTurn(Shut, ClosedSession(Session2).(ref := 3), Well);
    TurnOn(Shutting, Post(Dc(5), Open), Well);
  }

  /** The channels open after the session is closed: the ping timer starts, and fires into the
      released system channel. */
  lemma LatePing()
    ensures
      var steps := Shutting + [Post(Dc(5), Open), LoopStep(Well)] + [Post(Dc(5), Closed), LoopStep(Well)];
      var st := Run(steps);
      && RunsInto(steps, TimerStep(6)) && st.timers[6] == Ping(2)
      && 2 in st.sessions && !st.sessions[2].active && st.sessions[2].system == Some(5) && 5 !in st.channels
  {
    var before := Shutting + [Post(Dc(5), Open), LoopStep(Well)];
    PingingRun();
    ReleaseTurn(Pinged2, OpenedSession(ClosedSession(Session2).(ref := 3), Some(6)));
    TurnOn(before, Post(Dc(5), Closed), Well);
    HazardRun(before + [Post(Dc(5), Closed), LoopStep(Well)], TimerStep(6));
  }

  // ----- A native session that arrives after the system channel is gone ----------------

  const NoTimer: Outcome := Well.(timer := false)

  const Opened: State :=
    Greeted.(sessions := map[2 := OpenedSession(Session2, None)], openPosted := {5})

  const Asked2: Session := OpenedSession(Session2, None).(readyReceived := true, openings := 1, ref := 5)

  const Asked: State := Opened.(sessions := map[2 := Asked2], exec := [Command.Create(2)])

  const ReadyFrame: seq<char> := Frames.READY + [Frames.NUL]

  const Asking: seq<Step> :=
    Greeting + [Post(Dc(5), Open), LoopStep(NoTimer)] + [Post(Ws(2), Message(ReadyFrame)), LoopStep(Well)]

  lemma AskingRun()
    ensures Run(Asking) == Asked
  {
    GreetingRun();
    OpenTurn(Greeted, Session2, NoTimer);
    TurnOn(Greeting, Post(Dc(5), Open), NoTimer);
    assert Run(Greeting + [Post(Dc(5), Open), LoopStep(NoTimer)]) == Opened;
    ReadyRun();
    TurnOn(Greeting + [Post(Dc(5), Open), LoopStep(NoTimer)], Post(Ws(2), Message(ReadyFrame)), Well);
  }

  lemma ReadyRun()
    ensures Turn(Opened, Post(Ws(2), Message(ReadyFrame)), Well) == Asked
  {
    EventTurn(Opened, Ws(2), Message(ReadyFrame), Well);
    Frames.ReadyExactly(ReadyFrame);
    assert PostEvent(Opened, Ws(2), Message(ReadyFrame)).(tasks := []) == Opened;
    ReadyAsks(Opened, 2);
    var y := OpenedSession(Session2, None).(readyReceived := true);
    assert UnscheduleTimeout(Opened, 2) == Opened && y.(timeout := None) == y;
    assert Opened.sessions[2 := Asked2] == map[2 := Asked2];
    assert Opened.exec + [Command.Create(2)] == [Command.Create(2)];
  }

  const Releasing: seq<Step> :=
    Asking + [Post(Pc(2), DataChannel(false, 0)), LoopStep(Well)] + [Post(Dc(5), Closed), LoopStep(Well)]

  /** The session closes and its system channel is released while the native session is being
      made; opening the receive gates then follows the released channel. */
  lemma LateReceive()
    ensures
      var st := Run(Releasing + [ExecStep(Well)]);
      && RunsInto(Releasing + [ExecStep(Well)], LoopStep(Well)) && HandsOver(st)
      && st.sessions[2].channels == [] && st.sessions[2].system == Some(5) && 5 !in st.channels
  {
    AskingRun();
    CloseTurn(Asked, Asked2);
    TurnOn(Asking, Post(Pc(2), DataChannel(false, 0)), Well);
    var before := Asking + [Post(Pc(2), DataChannel(false, 0)), LoopStep(Well)];
    var x := ClosedSession(Asked2).(ref := 4);
    var st := Asked.(sessions := map[2 := x], channels := map[5 := Closed5],
                     sockets := map[1 := Socket(3, true, true, 0, [], 0)]);
    ReleaseTurn(st, x);
    TurnOn(before, Post(Dc(5), Closed), Well);
    LastTurn(Releasing);
  }

  /** The native session of session 2 is about to be handed over. */
  predicate HandsOver(st: State) {
    |st.tasks| == 1 && st.tasks[0].Created? && st.tasks[0].s == 2 && st.tasks[0].created.Some? && 2 in st.sessions
  }

  /** The native session of a session that lacks a channel is being made. */
  ghost predicate Lacking(st: State) {
    && !st.fault && 2 in st.sessions && st.sessions[2].socket in st.sockets
    && !AllThere(st.sessions[2], st.channels) && st.exec == [Command.Create(2)] && st.tasks == []
  }

  /** The native session is made, and handed over. */
  lemma LastTurn(steps: seq<Step>)
    requires Lacking(Run(steps))
    ensures
      var st, st' := Run(steps), Run(steps + [ExecStep(Well)]);
      && RunsInto(steps + [ExecStep(Well)], LoopStep(Well)) && HandsOver(st')
      && st'.sessions == st.sessions && st'.channels == st.channels
  {
    var st := Run(steps);
    RunOn(steps, ExecStep(Well));
    var st1 := Run(steps + [ExecStep(Well)]);
    assert st1.tasks == [Task.Created(2, Some(st.next))];
    HazardRun(steps + [ExecStep(Well)], LoopStep(Well));
  }

  // ----- A native session that arrives after a data channel is gone --------------------

  const Two: Outcome := Well.(acquired := 2)

  /** One data channel, 5, and the system channel, 6. */
  const Session21: Session :=
    Session(5, true, true, true, true, false, false, 1, [Some(5)], Some(6), Some(4), 0, None, None, None, 1, 0, {5, 6},
            {})

  const Data5: Channel := Channel(2, true, true, false, 0, 2, false)

  const Greeted1: State :=
    JoinedWith(1).(sessions := map[2 := Session21], channels := map[5 := Data5, 6 := System5], timers := map[],
                   rtc := map[Wss(1) := true, Ws(2) := true, Pc(2) := true, Dc(5) := true, Dc(6) := true],
                   ledger := Ledger({SocketRef(1), SessionRef(2), ChannelRef(5), ChannelRef(6)}, multiset{}, {}, map[]),
                   next := 7)

  const Greeting1: seq<Step> :=
    [Listen(1), LoopStep(Well)] + [Post(Wss(1), Client), LoopStep(Well)]
    + [Post(Ws(2), Message(AuthFrame)), LoopStep(Two)]

  /** The session 2 with its slots, before its channels are acquired. */
  const Slotted1: Session :=
    NewSession(1, 3).(entry := Some(4), authenticated := true, authResults := 1, timeout := None, channels := [None])

  lemma DataRun(st: State)
    requires st == JoinedWith(1).(sessions := map[2 := Slotted1], timers := map[])
    ensures
      AddChannels(st, 2, 1)
      == st.(sessions := map[2 := Slotted1.(ref := 4, members := {5}, channels := [Some(5)])],
             channels := map[5 := Data5], rtc := st.rtc[Dc(5) := true],
             ledger := Acquired(st.ledger, ChannelRef(5)), next := 6)
  {
    assert AddChannels(st, 2, 0) == st;
    var x := Slotted1.(ref := 4, members := {5});
    assert Slotted1.members + {5} == {5};
    var st1 := AcquireChannel(st, 2, 0);
    assert st1.sessions == map[2 := x] && st1.channels == map[5 := Data5];
    assert x.channels[0 := Some(5)] == [Some(5)];
    assert st1.sessions[2 := x.(channels := [Some(5)])] == map[2 := x.(channels := [Some(5)])];
  }

  lemma SystemRun1(st: State)
    requires
      st == JoinedWith(1).(sessions := map[2 := Slotted1.(ref := 4, members := {5}, channels := [Some(5)])],
                           channels := map[5 := Data5], timers := map[], rtc := JoinedWith(1).rtc[Dc(5) := true],
                           ledger := Acquired(JoinedWith(1).ledger, ChannelRef(5)), next := 6)
    ensures AddSystemChannel(st, 2) == Greeted1
  {
    var x := st.sessions[2].(ref := 5, members := {5, 6});
    assert {5} + {6} == {5, 6};
    var st1 := AcquireChannel(st, 2, SYSTEM_INDEX);
    assert st1.sessions == map[2 := x] && st1.channels == Greeted1.channels;
    assert x.(system := Some(6)) == Session21;
    assert st1.sessions[2 := Session21] == map[2 := Session21];
    assert st1.rtc == Greeted1.rtc;
    assert st1.ledger.acquired == Greeted1.ledger.acquired;
  }

  lemma SlotsRun(st: State, x: Session)
    requires st.sessions == map[2 := x] && x.socket in st.sockets && st.sockets[x.socket].modes == 1
    ensures CreateChannels(st, 2, Two)
            == Creation(AddSystemChannel(AddChannels(st.(sessions := map[2 := x.(channels := [None])]), 2, 1), 2), true)
  {
    assert seq(1, _ => Option<nat>.None) == [None];
    assert st.sessions[2 := x.(channels := [None])] == map[2 := x.(channels := [None])];
  }

  lemma AuthRun1()
    ensures WsAuthResult(JoinedWith(1), 2, Some(0), Two) == Greeted1
  {
    var x := NewSession(1, 3).(entry := Some(4), authenticated := true, authResults := 1);
    var st := SetSession(JoinedWith(1), 2, x);
    assert JoinedWith(1).sessions[2 := x] == map[2 := x];
    var st1 := JoinedWith(1).(sessions := map[2 := x.(timeout := None)], timers := map[]);
    assert UnscheduleTimeout(st, 2) == st1;
    SlotsRun(st1, x.(timeout := None));
    var st2 := st1.(sessions := map[2 := Slotted1]);
    DataRun(st2);
    SystemRun1(AddChannels(st2, 2, 1));
  }

  lemma GreetingRun1()
    ensures Run(Greeting1) == Greeted1
  {
    ListeningRun(1);
    ClientRun(1);
    AuthTurn1();
    assert Run([]) == Initial;
    TurnOn([], Listen(1), Well);
    assert [] + [Listen(1), LoopStep(Well)] == [Listen(1), LoopStep(Well)];
    TurnOn([Listen(1), LoopStep(Well)], Post(Wss(1), Client), Well);
    TurnOn([Listen(1), LoopStep(Well)] + [Post(Wss(1), Client), LoopStep(Well)], Post(Ws(2), Message(AuthFrame)), Two);
  }

  lemma AuthTurn1()
    ensures Turn(JoinedWith(1), Post(Ws(2), Message(AuthFrame)), Two) == Greeted1
  {
    EventTurn(JoinedWith(1), Ws(2), Message(AuthFrame), Two);
    Frames.AuthRoundTrip("x");
    assert PostEvent(JoinedWith(1), Ws(2), Message(AuthFrame)).(tasks := []) == JoinedWith(1);
    AuthRun1();
  }

  const Half: Session := Session21.(openCount := 1, openedBy := {5})
  const Whole: Session := Session21.(openCount := 2, openedBy := {5, 6}, allOpened := true)
  const Wanting: Session := Whole.(readyReceived := true, openings := 1, ref := 6)

  lemma HalfTurn()
    ensures Turn(Greeted1, Post(Dc(5), Open), NoTimer)
            == Greeted1.(sessions := map[2 := Half], openPosted := {5})
  {
    EventTurn(Greeted1, Dc(5), Open, NoTimer);
    var st := Greeted1.(openPosted := {5});
    assert PostEvent(Greeted1, Dc(5), Open).(tasks := []) == st;
    HalfRun(st);
  }

  lemma HalfRun(st: State)
    requires st.sessions == map[2 := Session21]
    ensures OnChannelOpened(st, 2, 5, NoTimer) == st.(sessions := map[2 := Half])
  {
    assert SeesOpen(Session21, 5) == Half;
    assert st.sessions[2 := Half] == map[2 := Half];
  }

  lemma WholeTurn(st: State)
    requires st == Greeted1.(sessions := map[2 := Half], openPosted := {5})
    ensures Turn(st, Post(Dc(6), Open), NoTimer) == st.(sessions := map[2 := Whole], openPosted := {5, 6})
  {
    EventTurn(st, Dc(6), Open, NoTimer);
    assert {5} + {6} == {5, 6};
    var st1 := st.(openPosted := {5, 6});
    assert PostEvent(st, Dc(6), Open).(tasks := []) == st1;
    AllOpenedIs(st1, 2, 6, NoTimer);
    assert SeesOpen(Half, 6).(allOpened := true, ping := None) == Whole;
    assert Pinged(st1, 2, NoTimer) == st1;
    assert st1.sessions[2 := Whole] == map[2 := Whole];
  }

  lemma WantingTurn(st: State)
    requires st == Greeted1.(sessions := map[2 := Whole], openPosted := {5, 6})
    ensures Turn(st, Post(Ws(2), Message(ReadyFrame)), Well)
            == st.(sessions := map[2 := Wanting], exec := [Command.Create(2)])
  {
    EventTurn(st, Ws(2), Message(ReadyFrame), Well);
    Frames.ReadyExactly(ReadyFrame);
    PlainlyPosted(st, Ws(2), Message(ReadyFrame));
    WantingRun(st);
  }

  lemma WantingRun(st: State)
    requires st == Greeted1.(sessions := map[2 := Whole], openPosted := {5, 6})
    ensures RecvReady(st, 2) == st.(sessions := map[2 := Wanting], exec := [Command.Create(2)])
  {
    ReadyAsks(st, 2);
    assert UnscheduleTimeout(st, 2) == st;
    assert Whole.(readyReceived := true, timeout := None) == Whole.(readyReceived := true);
    assert st.sessions[2 := Wanting] == map[2 := Wanting];
    assert st.exec + [Command.Create(2)] == [Command.Create(2)];
  }

  /** The DC of the data channel closes, and its slot is empty. */
  lemma EmptyTurn(st: State)
    requires st == Greeted1.(sessions := map[2 := Wanting], openPosted := {5, 6}, exec := [Command.Create(2)])
    ensures
      var st' := Turn(st, Post(Dc(5), Closed), Well);
      && Lacking(st') && st'.sessions[2].channels == [None] && st'.sessions[2].system == Some(6)
      && 6 in st'.channels
  {
    EventTurn(st, Dc(5), Closed, Well);
    var y := Wanting.(channels := [None]);
    var st1 := PostEvent(st, Dc(5), Closed).(tasks := []);
    var st2 := st1.(rtc := st1.rtc - {Dc(5)}, ledger := Straying(st1.ledger, 5, Data5));
    assert SetSlot(Wanting.channels, 0, None) == [None];
    assert st2.sessions[2 := y] == map[2 := y];
    assert RemoveChannel(st2, 2, 0) == st2.(sessions := map[2 := y]);
    var st' := Turn(st, Post(Dc(5), Closed), Well);
    assert st'.sessions == map[2 := y];
    assert st'.sessions[2].channels[0].None?;
  }

  const Halfway: seq<Step> := Greeting1 + [Post(Dc(5), Open), LoopStep(NoTimer)]

  lemma HalfwayRun()
    ensures Run(Halfway) == Greeted1.(sessions := map[2 := Half], openPosted := {5})
  {
    GreetingRun1();
    HalfTurn();
    TurnOn(Greeting1, Post(Dc(5), Open), NoTimer);
  }

  const Wanted: seq<Step> :=
    Halfway + [Post(Dc(6), Open), LoopStep(NoTimer)] + [Post(Ws(2), Message(ReadyFrame)), LoopStep(Well)]

  lemma WantedRun()
    ensures Run(Wanted)
            == Greeted1.(sessions := map[2 := Wanting], openPosted := {5, 6}, exec := [Command.Create(2)])
  {
    HalfwayRun();
    var st := Greeted1.(sessions := map[2 := Half], openPosted := {5});
    WholeTurn(st);
    TurnOn(Halfway, Post(Dc(6), Open), NoTimer);
    WantingTurn(st.(sessions := map[2 := Whole], openPosted := {5, 6}));
    TurnOn(Halfway + [Post(Dc(6), Open), LoopStep(NoTimer)], Post(Ws(2), Message(ReadyFrame)), Well);
  }

  const Emptied1: seq<Step> := Wanted + [Post(Dc(5), Closed), LoopStep(Well)]

  /** A data channel closes while the native session is being made; opening the receive gates
      then follows the empty slot. */
  lemma EmptySlot()
    ensures
      var st := Run(Emptied1 + [ExecStep(Well)]);
      && RunsInto(Emptied1 + [ExecStep(Well)], LoopStep(Well)) && HandsOver(st)
      && st.sessions[2].channels == [None] && st.sessions[2].system == Some(6) && 6 in st.channels
  {
    WantedRun();
    EmptyTurn(Run(Wanted));
    TurnOn(Wanted, Post(Dc(5), Closed), Well);
    LastTurn(Emptied1);
  }

  // ----- A message gets through --------------------------------------------------------

  const Open5: Channel := Data5.(dcReceive := true)
  const Open6: Channel := System5.(dcReceive := true)
  const Serving2: Session := Wanting.(native := Some(7), ref := 5)

  /** The native session of session 2 is 7, and its gates are open. */
  const Serving: State :=
    Greeted1.(sessions := map[2 := Serving2], channels := map[5 := Open5, 6 := Open6], owners := map[7 := 2],
              openPosted := {5, 6}, made := {7}, next := 8)

  lemma ServingRun()
    ensures Run(Wanted + [ExecStep(Well)] + [LoopStep(Well)]) == Serving
  {
    Made1Run();
    LoopOn(Wanted + [ExecStep(Well)]);
    HandoverRun(Made1);
  }

  const Made1: State := Greeted1.(sessions := map[2 := Wanting], openPosted := {5, 6}, made := {7}, next := 8)

  lemma Made1Run()
    ensures Run(Wanted + [ExecStep(Well)]) == Made1.(tasks := [Task.Created(2, Some(7))])
  {
    WantedRun();
    RunOn(Wanted, ExecStep(Well));
    Made1Step(Greeted1.(sessions := map[2 := Wanting], openPosted := {5, 6}));
  }

  lemma Made1Step(st: State)
    requires 2 in st.sessions && st.sessions[2].socket in st.sockets && !st.fault && st.tasks == [] && st.made == {}
    ensures After(st.(exec := [Command.Create(2)]), ExecStep(Well))
            == st.(exec := [], tasks := [Task.Created(2, Some(st.next))], made := {st.next}, next := st.next + 1)
  {
    assert [Command.Create(2)][1..] == [];
  }

  lemma HandoverRun(st: State)
    requires st == Made1
    ensures Loop(st.(tasks := [Task.Created(2, Some(7))]), Well) == Serving
  {
    var x := Wanting.(native := Some(7));
    var st1 := st.(sessions := map[2 := x], owners := map[7 := 2]);
    assert st.(tasks := [Task.Created(2, Some(7))]).tasks[1..] == [];
    assert st.sessions[2 := x] == map[2 := x] && st.owners[7 := 2] == map[7 := 2];
    assert OnCreated(st, 2, Some(7)) == OnConnected(st1, 2);
    GatesRun(st1);
    LastRef(st1.(channels := Serving.channels), x);
  }

  lemma GatesRun(st: State)
    requires st.channels == map[5 := Data5, 6 := System5] && 2 in st.sessions
    requires st.sessions[2].channels == [Some(5)] && st.sessions[2].system == Some(6)
    ensures OnConnected(st, 2) == st.(channels := map[5 := Open5, 6 := Open6])
  {
    assert [Some(5)][..0] == [];
    assert EnableSlots(st, []) == st;
    assert st.channels[5 := Open5] == map[5 := Open5, 6 := System5];
    assert map[5 := Open5, 6 := System5][6 := Open6] == map[5 := Open5, 6 := Open6];
  }

  const Attached: State := Serving.(channels := map[5 := Open5.(incoming := true), 6 := Open6])

  lemma AttachedRun()
    ensures Turn(Serving, Post(Pc(2), DataChannel(true, 0)), Well) == Attached
  {
    EventTurn(Serving, Pc(2), DataChannel(true, 0), Well);
    PlainlyPosted(Serving, Pc(2), DataChannel(true, 0));
    assert DataChannelArrived(Serving, 2, 0) == SetChannel(Serving, 5, Open5.(incoming := true));
    assert Serving.channels[5 := Open5.(incoming := true)] == Attached.channels;
  }

  lemma MessageRun(raw: seq<char>)
    ensures Turn(Attached, Post(Dc(5), Message(raw)), Well).exec == [Receive(5, Some(7))]
    ensures !Turn(Attached, Post(Dc(5), Message(raw)), Well).fault
  {
    EventTurn(Attached, Dc(5), Message(raw), Well);
    PlainlyPosted(Attached, Dc(5), Message(raw));
    assert DcMessage(Attached, 5) == ChannelReceive(Attached, 5);
    assert Attached.exec + [Receive(5, Some(7))] == [Receive(5, Some(7))];
  }

  const Serves: seq<Step> :=
    Wanted + [ExecStep(Well)] + [LoopStep(Well)] + [Post(Pc(2), DataChannel(true, 0)), LoopStep(Well)]

  /** A client authenticates, says READY, gets its native session and opens its data channel; then
      every message on it is handed to the native session. */
  lemma GetsThrough(raw: seq<char>)
    ensures
      var st := Run(Serves + [Post(Dc(5), Message(raw)), LoopStep(Well)]);
      !st.fault && st.exec == [Receive(5, Some(7))]
  {
    ServingRun();
    AttachedRun();
    MessageRun(raw);
    TurnOn(Wanted + [ExecStep(Well)] + [LoopStep(Well)], Post(Pc(2), DataChannel(true, 0)), Well);
    TurnOn(Serves, Post(Dc(5), Message(raw)), Well);
  }

  // ----- Closing a stale session -------------------------------------------------------

  const Erring: seq<Step> :=
    Greeting + [Post(Dc(5), Error), LoopStep(Well)] + [Post(Dc(5), Closed), LoopStep(Well)]

  lemma ErrorTurn()
    ensures Turn(Greeted, Post(Dc(5), Error), Well) == Greeted.(channels := map[5 := Closed5])
  {
    EventTurn(Greeted, Dc(5), Error, Well);
    assert PostEvent(Greeted, Dc(5), Error).(tasks := []) == Greeted;
    ChannelRun(Greeted, System5);
  }

  lemma ErringRun()
    ensures Run(Erring)
            == Greeted.(sessions := map[2 := Session2.(ref := 3)], channels := map[], rtc := Greeted.rtc - {Dc(5)},
                        ledger := Released(Greeted.ledger, ChannelRef(5)))
  {
    GreetingRun();
    ErrorTurn();
    TurnOn(Greeting, Post(Dc(5), Error), Well);
    ReleaseTurn(Greeted.(channels := map[5 := Closed5]), Session2);
    TurnOn(Greeting + [Post(Dc(5), Error), LoopStep(Well)], Post(Dc(5), Closed), Well);
  }

  /** An error on the DC of the system channel closes it under its session; once the DC has
      closed too, closing the session follows a released channel. */
  lemma SystemError()
    ensures
      var steps := Erring + [Post(Pc(2), DataChannel(false, 0))];
      && RunsInto(steps, LoopStep(Well)) && Run(steps).tasks == [Event(Pc(2), DataChannel(false, 0))]
      && StaleIn(Run(steps), 2)
  {
    ErringRun();
    FaultTurn(Erring, Pc(2), DataChannel(false, 0), Well);
  }

  // ----- A native session outlives its session -----------------------------------------

  const Connected2: Session := Asked2.(native := Some(6), ref := 4)

  /** The native session of session 2 is 6, and holds its channel. */
  const Connected: State :=
    Opened.(sessions := map[2 := Connected2], channels := map[5 := System5.(dcReceive := true)], owners := map[6 := 2],
            made := {6}, next := 7)

  const Holding: seq<Step> := Asking + [ExecStep(Well)] + [LoopStep(Well)]

  const Made: State := Asked.(exec := [], made := {6}, next := 7)

  lemma MadeRun()
    ensures After(Asked, ExecStep(Well)) == Made.(tasks := [Task.Created(2, Some(6))])
  {
    assert Asked.exec[1..] == [];
  }

  /** One turn of the loop. */
  lemma LoopOn(steps: seq<Step>)
    requires !Run(steps).fault && Run(steps).tasks != []
    ensures Run(steps + [LoopStep(Well)]) == Loop(Run(steps), Well)
  {
    RunOn(steps, LoopStep(Well));
  }

  lemma HoldingRun()
    ensures Run(Holding) == Connected
  {
    AskingRun();
    RunOn(Asking, ExecStep(Well));
    MadeRun();
    LoopOn(Asking + [ExecStep(Well)]);
    CreatedRun(Made);
  }

  lemma CreatedRun(st: State)
    requires st == Made
    ensures Loop(st.(tasks := [Task.Created(2, Some(6))]), Well) == Connected
  {
    var x := Asked2.(native := Some(6));
    var st1 := st.(sessions := map[2 := x], owners := map[6 := 2]);
    assert st.(tasks := [Task.Created(2, Some(6))]).tasks[1..] == [];
    assert st.sessions[2 := x] == map[2 := x] && st.owners[6 := 2] == map[6 := 2];
    assert OnCreated(st, 2, Some(6)) == OnConnected(st1, 2);
    assert EnableSlots(st1, x.channels) == st1;
    assert st1.channels[5 := System5.(dcReceive := true)] == map[5 := System5.(dcReceive := true)];
    LastRef(st1.(channels := map[5 := System5.(dcReceive := true)]), x);
  }

  /** The events that close everything of the session, and a disconnect by its native session,
      in this order. */
  const Parting: seq<Step> :=
    [Post(Ws(2), Closed), Post(Pc(2), Closed), Post(Dc(5), Closed), Kick(6)]

  const Parted: seq<Task> := [Event(Ws(2), Closed), Event(Pc(2), Closed), Event(Dc(5), Closed), Disconnect(6)]

  const Leaving: State :=
    Connected.(tasks := Parted, rtc := map[Wss(1) := true, Ws(2) := false, Pc(2) := false, Dc(5) := false])

  lemma PartingRun()
    ensures Run(Holding + Parting) == Leaving
  {
    HoldingRun();
    var steps := Holding;
    RunOn(steps, Parting[0]);
    RunOn(steps + [Parting[0]], Parting[1]);
    RunOn(steps + [Parting[0]] + [Parting[1]], Parting[2]);
    RunOn(steps + [Parting[0]] + [Parting[1]] + [Parting[2]], Parting[3]);
    assert steps + Parting == steps + [Parting[0]] + [Parting[1]] + [Parting[2]] + [Parting[3]];
    PostsRun();
  }

  lemma PostsClosed(st: State, source: Rtc)
    requires !st.fault && source in st.rtc && st.rtc[source] && !source.Wss?
    ensures After(st, Post(source, Closed))
            == st.(tasks := st.tasks + [Event(source, Closed)], rtc := st.rtc[source := false])
  {
  }

  lemma PostsRun()
    ensures After(After(After(After(Connected, Parting[0]), Parting[1]), Parting[2]), Parting[3]) == Leaving
  {
    PostsClosed(Connected, Ws(2));
    var st1 := After(Connected, Parting[0]);
    PostsClosed(st1, Pc(2));
    var st2 := After(st1, Parting[1]);
    PostsClosed(st2, Dc(5));
    var st3 := After(st2, Parting[2]);
    assert st3.rtc == Leaving.rtc;
    assert st3.tasks + [Disconnect(6)] == Parted;
  }

  /** The WS closes: the session gives its native session up. */
  const Left: State :=
    Leaving.(tasks := Parted[1..], rtc := map[Wss(1) := true, Pc(2) := false, Dc(5) := false], exec := [Destroy(6)],
             sessions := map[2 := ClosedSession(Connected2).(ref := 2)],
             channels := map[5 := Closed5.(dcReceive := true)], sockets := map[1 := Socket(3, true, true, 0, [], 0)])

  const Leaving1: State := Leaving.(tasks := Parted[1..], rtc := Left.rtc)

  lemma LeavingRun()
    ensures Loop(Leaving, Well) == Left
  {
    LeavingTaken();
    WsClosedTurn(Leaving, 2);
    LeavingCloses();
    LeftLast();
  }

  lemma LeavingTaken()
    ensures Leaving.tasks != [] && Leaving.tasks[0] == Event(Ws(2), Closed) && 2 in Leaving.sessions
    ensures Leaving.(tasks := Leaving.tasks[1..], rtc := Leaving.rtc - {Ws(2)}) == Leaving1
  {
    assert Leaving.rtc - {Ws(2)} == Left.rtc;
  }

  lemma LeftLast()
    ensures UnrefSession(Left.(sessions := map[2 := ClosedSession(Connected2).(ref := 3)]), 2) == Left
  {
    LastRef(Left.(sessions := map[2 := ClosedSession(Connected2).(ref := 3)]), ClosedSession(Connected2).(ref := 3));
  }

  lemma WsClosedTurn(st: State, s: nat)
    requires st.tasks != [] && st.tasks[0] == Event(Ws(s), Closed) && s in st.sessions
    ensures
      var st' := st.(tasks := st.tasks[1..], rtc := st.rtc - {Ws(s)});
      Loop(st, Well) == UnrefSession(SessionClose(st', s), s)
  {
  }

  lemma LeavingCloses()
    ensures SessionClose(Leaving1, 2) == Left.(sessions := map[2 := ClosedSession(Connected2).(ref := 3)])
  {
    CloseRun(Leaving1, Connected2, System5.(dcReceive := true));
    assert Leaving1.exec + [Destroy(6)] == [Destroy(6)];
  }

  /** The session is closed already. */
  lemma PcClosedTurn(st: State, s: nat)
    requires st.tasks != [] && st.tasks[0] == Event(Pc(s), Closed) && s in st.sessions && !st.sessions[s].active
    ensures Loop(st, Well) == UnrefSession(st.(tasks := st.tasks[1..], rtc := st.rtc - {Pc(s)}), s)
  {
  }

  /** The PC closes. */
  lemma LeftRun()
    ensures Loop(Left, Well)
            == Left.(tasks := Parted[2..], rtc := map[Wss(1) := true, Dc(5) := false],
                     sessions := map[2 := ClosedSession(Connected2).(ref := 1)])
  {
    var st := Left.(tasks := Parted[2..], rtc := map[Wss(1) := true, Dc(5) := false]);
    assert Left.rtc - {Pc(2)} == st.rtc && Left.tasks[1..] == st.tasks;
    PcClosedTurn(Left, 2);
    LastRef(st, ClosedSession(Connected2).(ref := 2));
  }

  /** The DC closes: the channel is released, and with it the session. */
  lemma GoneRun(st: State)
    requires st == Left.(tasks := Parted[2..], rtc := map[Wss(1) := true, Dc(5) := false],
                         sessions := map[2 := ClosedSession(Connected2).(ref := 1)])
    ensures
      var st' := Loop(st, Well);
      && !st'.fault && st'.tasks == [Disconnect(6)] && 2 !in st'.sessions && st'.owners == map[6 := 2]
      && 6 !in st'.destroyed
  {
    var y := ClosedSession(Connected2).(ref := 1);
    var st1 := st.(tasks := Parted[3..], rtc := st.rtc - {Dc(5)});
    assert y.(channels := SetSlot(y.channels, SYSTEM_INDEX, None)) == y;
    assert st1.sessions[2 := y] == st1.sessions;
    assert RemoveChannel(st1, 2, SYSTEM_INDEX) == st1;
    var st2 := st1.(channels := st1.channels - {5}, ledger := Released(st1.ledger, ChannelRef(5)));
    assert Loop(st, Well) == UnrefSession(st2, 2);
    assert DestroyNative(st2, 2) == st2 && UnscheduleTimeout(st2, 2) == st2;
  }

  const Gone: seq<Step> := Holding + Parting + [LoopStep(Well)] + [LoopStep(Well)] + [LoopStep(Well)]

  lemma GoneRuns()
    ensures Run(Gone) == Loop(Loop(Left, Well), Well)
  {
    LeftRuns();
    LeftGoesOn();
    LoopOn(Holding + Parting + [LoopStep(Well)] + [LoopStep(Well)]);
  }

  lemma LeftRuns()
    ensures Run(Holding + Parting + [LoopStep(Well)] + [LoopStep(Well)]) == Loop(Left, Well)
  {
    PartingRun();
    LoopOn(Holding + Parting);
    LeavingRun();
    LoopOn(Holding + Parting + [LoopStep(Well)]);
  }

  lemma LeftGoesOn()
    ensures !Loop(Left, Well).fault && Loop(Left, Well).tasks != []
  {
    LeftRun();
  }

  /** The native side disconnects a session while it holds it; by the time the loop handles
      this, the session is released, and the disconnect follows a stale pointer. */
  lemma LateDisconnect()
    ensures
      var st := Run(Gone);
      && RunsInto(Gone, LoopStep(Well)) && st.tasks == [Disconnect(6)]
      && 6 !in st.destroyed && st.owners == map[6 := 2] && 2 !in st.sessions
  {
    GoneRuns();
    LeftRun();
    GoneRun(Loop(Left, Well));
    HazardRun(Gone, LoopStep(Well));
  }

  /** The native side sends to a session that it holds, whose WS has closed. */
  const Sending: seq<Step> := Holding + [Post(Ws(2), Closed)] + [Call(6, 0)]

  const Sent: State :=
    Connected.(tasks := [Event(Ws(2), Closed), Deliver(6, 0)],
               rtc := map[Wss(1) := true, Ws(2) := false, Pc(2) := true, Dc(5) := true])

  lemma SendingRun()
    ensures Run(Sending) == Sent
  {
    ClosingRun();
    RunOn(Holding + [Post(Ws(2), Closed)], Call(6, 0));
    assert [Event(Ws(2), Closed)] + [Deliver(6, 0)] == Sent.tasks;
  }

  lemma ClosingRun()
    ensures Run(Holding + [Post(Ws(2), Closed)]) == Sent.(tasks := [Event(Ws(2), Closed)])
  {
    HoldingRun();
    RunOn(Holding, Post(Ws(2), Closed));
    PostsClosed(Connected, Ws(2));
    assert Connected.rtc[Ws(2) := false] == Sent.rtc;
    assert Connected.tasks + [Event(Ws(2), Closed)] == [Event(Ws(2), Closed)];
  }

  const Unsent: State :=
    Sent.(tasks := [Deliver(6, 0)], rtc := map[Wss(1) := true, Pc(2) := true, Dc(5) := true], exec := [Destroy(6)],
          sessions := map[2 := ClosedSession(Connected2).(ref := 2)],
          channels := map[5 := Closed5.(dcReceive := true)], sockets := map[1 := Socket(3, true, true, 0, [], 0)])

  lemma UnsentCloses(st: State)
    requires st == Sent.(tasks := Unsent.tasks, rtc := Unsent.rtc)
    ensures SessionClose(st, 2) == Unsent.(sessions := map[2 := ClosedSession(Connected2).(ref := 3)])
  {
    CloseRun(st, Connected2, System5.(dcReceive := true));
    assert st.exec + [Destroy(6)] == [Destroy(6)];
  }

  lemma SentTaken()
    ensures Sent.tasks != [] && Sent.tasks[0] == Event(Ws(2), Closed) && 2 in Sent.sessions
    ensures Sent.(tasks := Sent.tasks[1..], rtc := Sent.rtc - {Ws(2)})
            == Sent.(tasks := Unsent.tasks, rtc := Unsent.rtc)
  {
    assert Sent.rtc - {Ws(2)} == Unsent.rtc;
    assert Sent.tasks[1..] == Unsent.tasks;
  }

  lemma UnsentRun()
    ensures Loop(Sent, Well) == Unsent
  {
    SentTaken();
    WsClosedTurn(Sent, 2);
    UnsentCloses(Sent.(tasks := Unsent.tasks, rtc := Unsent.rtc));
    LastRef(Unsent.(sessions := map[2 := ClosedSession(Connected2).(ref := 3)]),
            ClosedSession(Connected2).(ref := 3));
  }

  lemma DestroyedRun()
    ensures After(Unsent, ExecStep(Well)) == Unsent.(exec := [], destroyed := multiset{6})
  {
    assert Unsent.exec[1..] == [];
  }

  const Destroying: seq<Step> := Sending + [LoopStep(Well)] + [ExecStep(Well)]

  /** The session closes and its native session is destroyed before the loop comes to the message:
      the private data of a destroyed native session is asked for, while the session is live. */
  lemma DestroyedLookup()
    ensures
      var st := Run(Destroying);
      && RunsInto(Destroying, LoopStep(Well)) && st.tasks == [Deliver(6, 0)]
      && 6 in st.destroyed && st.owners == map[6 := 2] && 2 in st.sessions
  {
    SendingRun();
    LoopOn(Sending);
    UnsentRun();
    RunOn(Sending + [LoopStep(Well)], ExecStep(Well));
    DestroyedRun();
    HazardRun(Destroying, LoopStep(Well));
  }

  /** The native side asks for the round-trip time of a native session that was made and not yet
      handed over: its private data is NULL. */
  lemma EarlyRtt()
    ensures
      var st := Run(Asking + [ExecStep(Well)]);
      && RunsInto(Asking + [ExecStep(Well)], AskRtt(6)) && 6 !in st.owners && 6 !in st.destroyed
  {
    AskingRun();
    RunOn(Asking, ExecStep(Well));
    MadeRun();
    HazardRun(Asking + [ExecStep(Well)], AskRtt(6));
  }

  // ----- A destroy is lost -------------------------------------------------------------

  /** The native socket stops, and with it the executor; the loop then closes the session, whose
      native session is never destroyed. */
  lemma LostDestroy()
    ensures
      var st := Run(Holding + [Stop(0), LoopStep(Well)]);
      !st.fault && st.lost == multiset{6} && st.destroyed == multiset{} && st.exec == []
  {
    var st := Connected.(listening := {});
    HoldingRun();
    TurnOn(Holding, Stop(0), Well);
    StopTurn(Connected, 0);
    assert Connected.listening - {0} == {};
    StoppedRun(st);
  }

  lemma StopTurn(st: State, n: nat)
    requires st.tasks == [] && !st.fault && n in st.listening && n in st.socketMap
    ensures Turn(st, Stop(n), Well) == SocketClose(st.(listening := st.listening - {n}), st.socketMap[n])
  {
    assert After(st, Stop(n)) == st.(tasks := [Stopped(n)], listening := st.listening - {n});
    assert [Stopped(n)][1..] == [];
  }

  lemma StoppedRun(st: State)
    requires st == Connected.(listening := {})
    ensures
      var st' := SocketClose(st, 1);
      !st'.fault && st'.lost == multiset{6} && st'.destroyed == multiset{} && st'.exec == []
  {
    var st1 := st.(sockets := map[1 := Socket(3, false, true, 0, [Node(4, 2)], 0)]);
    var st2 := st.(sockets := map[1 := Socket(3, false, true, 0, [], 0)],
                   sessions := map[2 := Connected2.(entry := None)]);
    assert st.sockets[1 := st1.sockets[1]] == st1.sockets;
    assert st1.sockets[1 := st2.sockets[1]] == st2.sockets && [Node(4, 2)][1..] == [];
    assert st1.sessions[2 := Connected2.(entry := None)] == st2.sessions;
    PoppedRun(st1, st2);
    UnlistedRun(st2);
  }

  lemma PoppedRun(st1: State, st2: State)
    requires 1 in st1.sockets && st1.sockets[1].sessions == [Node(4, 2)] && 2 in st1.sessions
    requires st2 == SetSession(SetSocket(st1, 1, st1.sockets[1].(sessions := [])), 2, st1.sessions[2].(entry := None))
    ensures CloseNodes(st1, 1, [Node(4, 2)]) == SessionClose(st2, 2)
  {
    assert [Node(4, 2)][..0] == [] && [Node(4, 2)][1..] == [];
    assert CloseNodes(st1, 1, []) == st1;
  }

  lemma UnlistedRun(st: State)
    requires st == Connected.(listening := {}, sockets := map[1 := Socket(3, false, true, 0, [], 0)],
                              sessions := map[2 := Connected2.(entry := None)])
    ensures
      var st' := SessionClose(st, 2);
      && !st'.fault && st'.lost == multiset{6} && st'.destroyed == multiset{} && st'.exec == []
      && st'.sockets == st.sockets
  {
    var x := Connected2.(entry := None);
    var y := x.(active := false);
    var st1 := st.(sessions := map[2 := y]);
    var st2 := st1.(channels := map[5 := Closed5.(dcReceive := true)]);
    DeactivateRun(st, x);
    assert CloseSlots(st1, x.channels) == st1;
    ChannelRun(st1, System5.(dcReceive := true));
    var z := y.(wsActive := false, pcActive := false);
    assert st2.sessions[2 := z] == map[2 := z];
    GiveUpRun(st2.(sessions := map[2 := z]), z);
    var st3 := DestroyNative(st2.(sessions := map[2 := z]), 2);
    assert CloseParts(st2, 2) == st3;
    LastRef(st3, z.(native := None));
  }

  // ----- What an rtc object must not do ------------------------------------------------

  /** Once the closed event of its DC was handled, a channel that is still live has only the
      references of its active flag and of pending receives. A second closed event takes one of
      these: it releases the channel under them, or leaves it one short. */
  lemma SecondClosedBreaks(st: State, c: nat, o: Outcome)
    requires Reachable(st) && Dc(c) !in st.rtc
    ensures
      var st' := DcEvent(st, c, Closed, o);
      if c !in st.channels then st' == st
      else
        && B(st.channels[c].active) + PendingReceives(st, c) >= 1
        && (c in st'.channels ==> st'.channels[c].ref < B(st'.channels[c].active) + PendingReceives(st', c))
  {
    if c in st.channels {
      References(st);
      NoDanglingParents(st);
      var x := st.channels[c];
      var st1 := RemoveChannel(st.(ledger := Straying(st.ledger, c, x)), x.session, x.index);
      assert st1.channels == st.channels && st1.exec == st.exec && st1.tasks == st.tasks;
      UnrefTakesOne(st1, c);
    }
  }

  /** A channel that survives has one reference less, and nothing else of it has changed. */
  lemma UnrefTakesOne(st: State, c: nat)
    requires c in st.channels && st.channels[c].ref >= 1
    ensures
      var st' := UnrefChannel(st, c);
      c in st'.channels ==>
        && st'.channels[c] == st.channels[c].(ref := st.channels[c].ref - 1)
        && st'.exec == st.exec && st'.tasks == st.tasks
  {
    if st.channels[c].ref <= 1 {
      UnrefSessionElsewhere(st.(channels := st.channels - {c}, ledger := Released(st.ledger, ChannelRef(c))),
                            st.channels[c].session);
    }
  }

  /** A second closed event for the same channel releases it while it is active. */
  lemma SecondClosed()
    ensures
      var st1 := DcEvent(Greeted, 5, Closed, Well);
      var st2 := DcEvent(st1, 5, Closed, Well);
      && 5 in st1.channels && st1.channels[5].active
      && 5 !in st2.channels && 2 in st2.sessions && st2.sessions[2].active && st2.sessions[2].system == Some(5)
  {
    var z := System5.(ref := 1);
    var st1 := Greeted.(channels := map[5 := z]);
    assert Session2.(channels := SetSlot(Session2.channels, SYSTEM_INDEX, None)) == Session2;
    assert Greeted.sessions[2 := Session2] == Greeted.sessions;
    assert DcEvent(Greeted, 5, Closed, Well) == st1;
    ReleaseRun(st1, Session2, z);
  }
}
