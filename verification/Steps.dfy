/** Every step keeps the invariant, but for the steps that follow a NULL or stale pointer, and
    these are known exactly. */
module Steps {
  import opened Wrappers
  import opened Model
  import Frames
  import opened Lifecycle
  import opened Invariants
  import opened Counting
  import opened Updates
  import opened Unref
  import opened Dwindling
  import opened Closing
  import opened Opening
  import opened Handshaking
  import opened Taking
  import opened Connecting
  import opened Pushing
  import opened Executing

  /** What a step has to avoid: closing a stale session, opening the receive gates past an empty
      slot or a released system channel, addressing a session by its native session when either
      is gone, or asking for its round-trip time before it got hold of the native session,
      reading past the end of a WebSocket frame, and pinging through a session or a system
      channel that was released. */
  ghost predicate Hazard(st: State, step: Step) {
    match step
    case LoopStep(_) => st.tasks != [] && TaskHazard(st, st.tasks[0])
    case TimerStep(t) => t in st.timers && TimerHazard(st, st.timers[t])
    case AskRtt(native) => !Finds(st, native) || st.owners[native] !in st.sessions
    case _ => false
  }

  ghost predicate TaskHazard(st: State, t: Task) {
    match t
    case Created(s, created) =>
      if created.Some? then s in st.sessions && !AllThere(st.sessions[s], st.channels) else StaleIn(st, s)
    case Event(source, what) => EventHazard(st, source, what)
    case Stopped(native) => native in st.socketMap && StaleOn(st, st.socketMap[native])
    case Disconnect(native) =>
      native in st.owners
      && (native in st.destroyed || st.owners[native] !in st.sessions || StaleIn(st, st.owners[native]))
    case Deliver(native, _) =>
      native in st.owners && (native in st.destroyed || st.owners[native] !in st.sessions)
    case Listening(_, _) => false
    case Received(_) => false
  }

  predicate StaleIn(st: State, s: nat) {
    Stale(s, st.sessions, st.channels)
  }

  /** Of the events, those that close a session, and a message that is too short. */
  ghost predicate EventHazard(st: State, source: Rtc, what: RtcEvent) {
    match source
    case Ws(s) =>
      if what.Message? then
        && s in st.sessions && st.sessions[s].wsActive
        && Frames.Dispatch(st.sessions[s].authenticated, what.raw).Overread?
      else what.Closed? && StaleIn(st, s)
    case Pc(s) => (what.Closed? || (what.DataChannel? && !what.valid)) && StaleIn(st, s)
    case Wss(_) => false
    case Dc(_) => false
  }

  ghost predicate TimerHazard(st: State, timer: Timer) {
    if timer.Timeout? then StaleIn(st, timer.s) else PingHazard(st, timer)
  }

  ghost predicate PingHazard(st: State, timer: Timer) {
    timer.Ping? &&
    (timer.s !in st.sessions || st.sessions[timer.s].system.None?
     || st.sessions[timer.s].system.value !in st.channels)
  }

  /** The state with its first task taken. */
  function Taken(st: State): State
    requires st.tasks != []
  {
    st.(tasks := st.tasks[1..], rtc := RtcAfter(st.tasks[0], st.rtc))
  }

  lemma PlainTaken(st: State)
    requires Invariant(st) && st.tasks != [] && TransitOf(st.tasks[0]) == multiset{}
    requires !(st.tasks[0].Event? && st.tasks[0].source.Dc? && st.tasks[0].what.Closed?)
    ensures Inv(Taken(st), HandOf(st.tasks[0]), {})
    ensures st.tasks[0].Event? ==> Live(st.sockets, st.sessions, st.channels, RtcRef(st.tasks[0].source))
    ensures st.tasks[0].Event? ==> st.tasks[0].source in st.rtc
  {
    Read(st, multiset{}, {});
    HeadEvents(st.tasks, st.rtc);
    RtcGrowsSlots(st.sessions, st.channels, st.rtc, RtcAfter(st.tasks[0], st.rtc), {});
    SameBooks(st.sockets, st.sessions, st.channels, st.sockets, st.sessions, st.channels, st.rtc,
              RtcAfter(st.tasks[0], st.rtc), st.ledger, st.next, st.next);
    HeadTaken(st);
  }

  /** The closed event of a WS or a PC closes the session and drops its reference. */
  lemma ClosedKeeps(st: State, s: nat)
    requires Inv(st, multiset{SessionRef(s)}, {}) && s in st.sessions
    ensures
      var st' := UnrefSession(SessionClose(st, s), s);
      if StaleIn(st, s) then st'.fault else Invariant(st')
  {
    var none: set<Ref> := {};
    if StaleIn(st, s) {
      SessionCloseFaults(st, s, multiset{SessionRef(s)}, none);
      UnrefSessionDwindles(SessionClose(st, s), s);
    } else {
      SessionCloseKeeps(st, s, multiset{SessionRef(s)}, none);
      assert none - {SessionRef(s)} == none;
      UnrefSessionKeeps(SessionClose(st, s), s, multiset{SessionRef(s)}, none);
      assert multiset{SessionRef(s)} - multiset{SessionRef(s)} == multiset{};
    }
  }

  lemma CloseKeeps(st: State, s: nat)
    requires Invariant(st) && s in st.sessions
    ensures if StaleIn(st, s) then SessionClose(st, s).fault else Invariant(SessionClose(st, s))
  {
    var none: set<Ref> := {};
    if StaleIn(st, s) {
      SessionCloseFaults(st, s, multiset{}, none);
    } else {
      SessionCloseKeeps(st, s, multiset{}, none);
      assert none - {SessionRef(s)} == none;
    }
  }

  lemma WssTaskKeeps(st: State, k: nat, what: RtcEvent, o: Outcome)
    requires Invariant(st) && st.tasks != [] && st.tasks[0] == Event(Wss(k), what)
    ensures Invariant(Loop(st, o))
  {
    PlainTaken(st);
    assert RtcRef(Wss(k)) == SocketRef(k);
    match what
    case Client =>
      if st.sockets[k].wssActive { CreateSessionKeeps(Taken(st), k, o, multiset{}); }
    case Closed =>
      UnrefSocketKeeps(Taken(st), k, multiset{SocketRef(k)}, {});
      assert multiset{SocketRef(k)} - multiset{SocketRef(k)} == multiset{};
    case _ =>
  }

  lemma MessageKeeps(st: State, s: nat, raw: seq<char>, o: Outcome)
    requires Invariant(st) && s in st.sessions && st.sessions[s].wsActive
    ensures
      if Frames.Dispatch(st.sessions[s].authenticated, raw).Overread? then ProcessMessage(st, s, raw, o).fault
      else Invariant(ProcessMessage(st, s, raw, o))
  {
    match Frames.Dispatch(st.sessions[s].authenticated, raw)
    case Auth(_) => WsAuthResultKeeps(st, s, o.token, o, multiset{});
    case Ready => RecvReadyKeeps(st, s, multiset{}, {});
    case _ =>
  }

  lemma WsTaskKeeps(st: State, s: nat, what: RtcEvent, o: Outcome)
    requires Invariant(st) && st.tasks != [] && st.tasks[0] == Event(Ws(s), what)
    ensures if TaskHazard(st, st.tasks[0]) then Loop(st, o).fault else Invariant(Loop(st, o))
  {
    PlainTaken(st);
    assert RtcRef(Ws(s)) == SessionRef(s);
    assert Loop(st, o) == WsEvent(Taken(st), s, what, o);
    match what
    case Message(raw) =>
      if st.sessions[s].wsActive { MessageKeeps(Taken(st), s, raw, o); }
    case Closed => ClosedKeeps(Taken(st), s);
    case _ =>
  }

  lemma PcTaskKeeps(st: State, s: nat, what: RtcEvent, o: Outcome)
    requires Invariant(st) && st.tasks != [] && st.tasks[0] == Event(Pc(s), what)
    ensures if TaskHazard(st, st.tasks[0]) then Loop(st, o).fault else Invariant(Loop(st, o))
  {
    PlainTaken(st);
    assert RtcRef(Pc(s)) == SessionRef(s);
    assert Loop(st, o) == PcEvent(Taken(st), s, what);
    match what
    case DataChannel(valid, index) =>
      if valid { DataChannelArrivedKeeps(Taken(st), s, index, multiset{}, {}); } else { CloseKeeps(Taken(st), s); }
    case Closed => ClosedKeeps(Taken(st), s);
    case _ =>
  }

  lemma DcOpenTaken(st: State, c: nat)
    requires Invariant(st) && st.tasks != [] && st.tasks[0] == Event(Dc(c), Open)
    ensures Inv(Taken(st), multiset{}, {}) && c in st.channels
    ensures OpenAtHand(Taken(st), st.channels[c].session, c)
  {
    PlainTaken(st);
    assert RtcRef(Dc(c)) == ChannelRef(c);
    ChannelFacts(st, c, multiset{}, {});
    assert Holds(Opens, st, multiset{}, {});
    HeadOpens(st.sessions, st.channels, st.tasks, st.openPosted);
  }

  lemma DcOpenKeeps(st: State, c: nat, o: Outcome)
    requires Invariant(st) && st.tasks != [] && st.tasks[0] == Event(Dc(c), Open)
    ensures Invariant(Loop(st, o))
  {
    DcOpenTaken(st, c);
    OnChannelOpenedKeeps(Taken(st), st.channels[c].session, c, o, multiset{}, {});
  }

  lemma DcErrorKeeps(st: State, c: nat, o: Outcome)
    requires Invariant(st) && st.tasks != [] && st.tasks[0] == Event(Dc(c), Error)
    ensures Invariant(Loop(st, o))
  {
    PlainTaken(st);
    assert RtcRef(Dc(c)) == ChannelRef(c);
    ChannelFacts(st, c, multiset{}, {});
    assert Holds(Opens, st, multiset{}, {});
    ChannelCloseKeeps(Taken(st), c, multiset{}, {});
  }

  lemma DcTaskKeeps(st: State, c: nat, what: RtcEvent, o: Outcome)
    requires Invariant(st) && st.tasks != [] && st.tasks[0] == Event(Dc(c), what)
    ensures Invariant(Loop(st, o))
  {
    match what
    case Closed => DcClosedKeeps(st, c, o);
    case Open => DcOpenKeeps(st, c, o);
    case Error => DcErrorKeeps(st, c, o);
    case Message(_) =>
      PlainTaken(st);
      assert RtcRef(Dc(c)) == ChannelRef(c);
      DcMessageKeeps(Taken(st), c, multiset{}, {});
    case _ => PlainTaken(st);
  }

  lemma ListeningKeeps(st: State, o: Outcome)
    requires Invariant(st) && st.tasks != [] && st.tasks[0].Listening?
    ensures Invariant(Loop(st, o))
  {
    PlainTaken(st);
    if o.acquire {
      assert Holds(Maps, st, multiset{}, {}) && Holds(Names, st, multiset{}, {});
      HeadMaps(st.sockets, st.socketMap, st.tasks);
      HeadFresh(st);
      SocketAcquired(Taken(st), Socket(2, true, true, st.tasks[0].modes, [], st.tasks[0].native), multiset{}, {});
    }
  }

  lemma StoppedKeeps(st: State, o: Outcome)
    requires Invariant(st) && st.tasks != [] && st.tasks[0].Stopped?
    ensures if TaskHazard(st, st.tasks[0]) then Loop(st, o).fault else Invariant(Loop(st, o))
  {
    PlainTaken(st);
    var n := st.tasks[0].native;
    if n in st.socketMap {
      assert Holds(Maps, st, multiset{}, {});
      assert MapsToLive(n, st.sockets, st.socketMap);
      if StaleOn(st, st.socketMap[n]) {
        SocketCloseFaults(Taken(st), st.socketMap[n], multiset{});
      } else {
        SocketCloseKeeps(Taken(st), st.socketMap[n], multiset{});
      }
    }
  }

  /** A native session that is addressed was handed over. */
  lemma AddressedOwned(st: State)
    requires Invariant(st) && st.tasks != [] && (st.tasks[0].Disconnect? || st.tasks[0].Deliver?)
    ensures st.tasks[0].native in st.owners
  {
    assert Holds(Owners, st, multiset{}, {});
    assert AddressedAt(0, st.tasks, st.owners);
  }

  lemma DisconnectKeeps(st: State, o: Outcome)
    requires Invariant(st) && st.tasks != [] && st.tasks[0].Disconnect?
    ensures if TaskHazard(st, st.tasks[0]) then Loop(st, o).fault else Invariant(Loop(st, o))
  {
    PlainTaken(st);
    AddressedOwned(st);
    var s := st.owners[st.tasks[0].native];
    if s in st.sessions { CloseKeeps(Taken(st), s); }
  }

  /** A message or a mode finds the channel in the slot of its index. */
  lemma DeliverKeeps(st: State, o: Outcome)
    requires Invariant(st) && st.tasks != [] && st.tasks[0].Deliver?
    ensures if TaskHazard(st, st.tasks[0]) then Loop(st, o).fault else Invariant(Loop(st, o))
  {
    PlainTaken(st);
    AddressedOwned(st);
    var s, index := st.owners[st.tasks[0].native], st.tasks[0].index;
    if s in st.sessions && index < |st.sessions[s].channels| && st.sessions[s].channels[index].Some? {
      SlotFacts(st, s, index, multiset{}, {});
    }
  }

  lemma ReceivedKeeps(st: State, o: Outcome)
    requires Invariant(st) && st.tasks != [] && st.tasks[0].Received?
    ensures Invariant(Loop(st, o))
  {
    PlainTaken(st);
    var c := st.tasks[0].c;
    UnrefChannelKeeps(Taken(st), c, multiset{ChannelRef(c)}, {});
    assert multiset{ChannelRef(c)} - multiset{ChannelRef(c)} == multiset{};
  }

  lemma UncreatedKeeps(st: State, o: Outcome)
    requires Invariant(st) && st.tasks != [] && st.tasks[0].Created? && st.tasks[0].created.None?
    ensures if TaskHazard(st, st.tasks[0]) then Loop(st, o).fault else Invariant(Loop(st, o))
  {
    PlainTaken(st);
    StillWaiting(st, st.tasks[0].s, None);
    ClosedKeeps(Taken(st), st.tasks[0].s);
  }

  /** A task of the event loop faults exactly when it is a hazard. */
  lemma LoopKeeps(st: State, o: Outcome)
    requires Invariant(st) && st.tasks != []
    ensures if TaskHazard(st, st.tasks[0]) then Loop(st, o).fault else Invariant(Loop(st, o))
  {
    match st.tasks[0]
    case Event(source, what) =>
      match source {
        case Wss(k) => WssTaskKeeps(st, k, what, o);
        case Ws(s) => WsTaskKeeps(st, s, what, o);
        case Pc(s) => PcTaskKeeps(st, s, what, o);
        case Dc(c) => DcTaskKeeps(st, c, what, o);
      }
    case Listening(_, _) => ListeningKeeps(st, o);
    case Stopped(_) => StoppedKeeps(st, o);
    case Disconnect(_) => DisconnectKeeps(st, o);
    case Deliver(_, _) => DeliverKeeps(st, o);
    case Created(s, created) =>
      if created.Some? { CreatedKeeps(st, s, created.value, o); } else { UncreatedKeeps(st, o); }
    case Received(_) => ReceivedKeeps(st, o);
  }

  lemma FireKeeps(st: State, t: nat)
    requires Invariant(st) && t in st.timers
    ensures if TimerHazard(st, st.timers[t]) then Fire(st, t).fault else Invariant(Fire(st, t))
  {
    if st.timers[t].Timeout? {
      var s := st.timers[t].s;
      assert Holds(Clocks, st, multiset{}, {});
      assert TimerOwned(t, st.sessions, st.timers);
      UnscheduleTimeoutKeeps(st, s, multiset{}, {});
      CloseKeeps(UnscheduleTimeout(st, s), s);
    }
  }

  /** The main theorem: a step faults exactly when it is a hazard, and keeps the invariant
      otherwise. */
  lemma NextKeeps(st: State, step: Step)
    requires Invariant(st) && Enabled(st, step)
    ensures Next(st, step).fault <==> Hazard(st, step)
    ensures !Hazard(st, step) ==> Invariant(Next(st, step))
  {
    match step
    case Post(source, what) => PostKeeps(st, Event(source, what), st.listening);
    case Listen(modes) => ListenKeeps(st, modes);
    case Stop(native) => PostKeeps(st, Stopped(native), st.listening - {native});
    case Kick(native) => PostKeeps(st, Disconnect(native), st.listening);
    case Call(native, index) => PostKeeps(st, Deliver(native, index), st.listening);
    case AskRtt(_) =>
    case LoopStep(o) => LoopKeeps(st, o);
    case ExecStep(o) => ExecuteKeeps(st, o);
    case WorkerStep(k) => PostKeeps(st, Event(Wss(k), Closed), st.listening);
    case TimerStep(t) => FireKeeps(st, t);
  }
}
