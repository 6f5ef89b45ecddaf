/** Creating sockets, sessions and channels keeps the invariant, and so does every step of the
    handshake. */
module Opening {
  import opened Wrappers
  import opened Model
  import opened Lifecycle
  import opened Invariants
  import opened Counting
  import opened Updates
  import opened Unref
  import opened Closing

  /** A name that was not given out refers to nothing, and nothing refers to it. */
  lemma Unused(st: State, n: nat, hand: multiset<Ref>, busy: set<Ref>)
    requires Inv(st, hand, busy) && n >= st.next
    ensures n !in st.sockets && n !in st.sessions && n !in st.channels && n !in st.timers && n !in st.openPosted
    ensures n !in st.made && n !in st.socketMap
    ensures
      var out := QueueRefs(st.tasks, st.exec) + hand;
      out[SocketRef(n)] == 0 && out[SessionRef(n)] == 0 && out[ChannelRef(n)] == 0
    ensures Wss(n) !in st.rtc && Ws(n) !in st.rtc && Pc(n) !in st.rtc && Dc(n) !in st.rtc
    ensures SessionsOf(st.sessions, n) == {} && ChannelsOf(st.channels, n) == {}
    ensures forall s :: s in st.sessions ==> n !in st.sessions[s].members && n !in st.sessions[s].openedBy
    ensures forall s :: s in st.sessions ==> st.sessions[s].system != Some(n)
  {
    Read(st, hand, busy);
    var out := QueueRefs(st.tasks, st.exec) + hand;
    assert !Below(n, st.next);
    assert !Live(st.sockets, st.sessions, st.channels, SocketRef(n));
    assert !Live(st.sockets, st.sessions, st.channels, SessionRef(n));
    assert !Live(st.sockets, st.sessions, st.channels, ChannelRef(n));
    assert RtcRef(Wss(n)) == SocketRef(n) && RtcRef(Ws(n)) == SessionRef(n);
    assert RtcRef(Pc(n)) == SessionRef(n) && RtcRef(Dc(n)) == ChannelRef(n);
    UnusedParent(st, n, out);
    forall s | s in st.sessions
      ensures n !in st.sessions[s].members && n !in st.sessions[s].openedBy && st.sessions[s].system != Some(n)
    {
      assert SessionFresh(st.sessions[s], st.next);
      assert Progresses(s, st.sessions, QueueRefs(st.tasks, st.exec));
      assert st.sessions[s].openedBy <= st.openPosted;
    }
  }

  lemma UnusedParent(st: State, n: nat, out: multiset<Ref>)
    requires Counted(st.sockets, st.sessions, st.channels, st.rtc, out) && n !in st.sockets && n !in st.sessions
    ensures SessionsOf(st.sessions, n) == {} && ChannelsOf(st.channels, n) == {}
  {
    forall s | s in st.sessions ensures st.sessions[s].socket != n {
      assert SessionCounted(s, st.sockets, st.sessions, st.channels, st.rtc, out);
    }
    forall c | c in st.channels ensures st.channels[c].session != n {
      assert ChannelCounted(c, st.sessions, st.channels, st.rtc, out);
    }
  }

  /** New rtc objects have posted nothing. */
  lemma RtcGrows(tasks: seq<Task>, rtc: RtcMap, rtc': RtcMap)
    requires ClosedLast(tasks, rtc)
    requires forall x :: x in rtc ==> x in rtc' && rtc'[x] == rtc[x]
    requires forall x :: x in rtc' && x !in rtc ==> rtc'[x]
    ensures ClosedLast(tasks, rtc')
  {
    forall i: nat | i < |tasks| ensures NoneAfterClosed(i, tasks, rtc') {
      assert NoneAfterClosed(i, tasks, rtc);
    }
    forall x ensures ClosedPosted(x, tasks, rtc') {
      assert ClosedPosted(x, tasks, rtc);
    }
  }

  lemma RtcGrowsSlots(sessions: Sessions, channels: Channels, rtc: RtcMap, rtc': RtcMap, busy: set<Ref>)
    requires Slotted(sessions, channels, rtc) && Active(sessions, channels, rtc, busy)
    requires forall c :: c in channels ==> (Dc(c) in rtc' <==> Dc(c) in rtc)
    ensures Slotted(sessions, channels, rtc') && Active(sessions, channels, rtc', busy)
  {
    forall s | s in sessions ensures SlotsFilled(s, sessions, channels, rtc') {
      assert SlotsFilled(s, sessions, channels, rtc);
    }
    forall c | c in channels
      ensures InSlot(c, sessions, channels, rtc') && ChannelActive(c, sessions, channels, rtc', busy)
    {
      assert InSlot(c, sessions, channels, rtc);
      assert ChannelActive(c, sessions, channels, rtc, busy);
    }
  }

  // ----- A new socket ------------------------------------------------------------------

  lemma SocketAdded(sockets: Sockets, sessions: Sessions, channels: Channels, rtc: RtcMap, k: nat, x: Socket,
                    out: multiset<Ref>)
    requires Counted(sockets, sessions, channels, rtc, out) && k !in sockets
    requires out[SocketRef(k)] == 0 && SessionsOf(sessions, k) == {} && x.active && x.ref == 2
    ensures Counted(sockets[k := x], sessions, channels, rtc[Wss(k) := true], out)
  {
    var sockets', rtc' := sockets[k := x], rtc[Wss(k) := true];
    forall j | j in sockets' ensures SocketCounted(j, sockets', sessions, rtc', out) {
      if j != k { assert SocketCounted(j, sockets, sessions, rtc, out); }
    }
    forall s | s in sessions ensures SessionCounted(s, sockets', sessions, channels, rtc', out) {
      assert SessionCounted(s, sockets, sessions, channels, rtc, out);
    }
    forall c | c in channels ensures ChannelCounted(c, sessions, channels, rtc', out) {
      assert ChannelCounted(c, sessions, channels, rtc, out);
    }
    forall r | r in out ensures Live(sockets', sessions, channels, r) {
      assert Live(sockets, sessions, channels, r);
    }
    forall y | y in rtc' ensures Live(sockets', sessions, channels, RtcRef(y)) {
      if y != Wss(k) { assert Live(sockets, sessions, channels, RtcRef(y)); }
    }
  }

  lemma SocketJoins(sockets: Sockets, sessions: Sessions, k: nat, x: Socket, busy: set<Ref>)
    requires Listed(sockets, sessions, busy) && k !in sockets
    requires x.active && x.wssActive && x.sessions == []
    ensures Listed(sockets[k := x], sessions, busy)
  {
    var sockets' := sockets[k := x];
    forall j | j in sockets' ensures ListSound(j, sockets', sessions, busy) {
      if j != k { assert ListSound(j, sockets, sessions, busy); }
    }
    forall s | s in sessions ensures IsListed(s, sockets', sessions, busy) {
      assert IsListed(s, sockets, sessions, busy);
    }
  }

  lemma SocketMapsIn(sockets: Sockets, socketMap: map<nat, nat>, tasks: seq<Task>, k: nat, x: Socket)
    requires Mapped(sockets, socketMap, tasks) && k !in sockets && x.native !in socketMap
    requires x.modes <= SYSTEM_INDEX && forall m :: Listening(x.native, m) !in tasks
    ensures Mapped(sockets[k := x], socketMap[x.native := k], tasks)
  {
    var sockets', socketMap' := sockets[k := x], socketMap[x.native := k];
    forall j | j in sockets' ensures MappedBack(j, sockets', socketMap') {
      if j != k { assert MappedBack(j, sockets, socketMap); }
    }
    forall n | n in socketMap' ensures MapsToLive(n, sockets', socketMap') {
      if n != x.native { assert MapsToLive(n, sockets, socketMap); }
    }
    forall i: nat | i < |tasks| ensures ListensFirst(i, socketMap', tasks) {
      assert ListensFirst(i, socketMap, tasks);
      if tasks[i].Listening? { assert tasks[i] == Listening(tasks[i].native, tasks[i].modes); }
    }
  }

  lemma SocketBooked(sockets: Sockets, sessions: Sessions, channels: Channels, rtc: RtcMap, k: nat, x: Socket,
                     ledger: Ledger)
    requires Booked(sockets, sessions, channels, rtc, ledger, k) && k !in sockets
    ensures Booked(sockets[k := x], sessions, channels, rtc[Wss(k) := true], Acquired(ledger, SocketRef(k)), k + 1)
  {
    ObjectBooked(sockets, sessions, channels, sockets[k := x], sessions, channels, rtc, rtc[Wss(k) := true], ledger, k,
                 k + 1, SocketRef(k));
  }

  lemma SocketAcquired(st: State, x: Socket, hand: multiset<Ref>, busy: set<Ref>)
    requires Inv(st, hand, busy) && x.native !in st.socketMap && x.native < st.next && x.modes <= SYSTEM_INDEX
    requires forall m :: Listening(x.native, m) !in st.tasks
    requires x.ref == 2 && x.active && x.wssActive && x.sessions == []
    ensures Inv(st.(sockets := st.sockets[st.next := x], socketMap := st.socketMap[x.native := st.next],
                    rtc := st.rtc[Wss(st.next) := true], ledger := Acquired(st.ledger, SocketRef(st.next)),
                    next := st.next + 1), hand, busy)
  {
    var k, rtc' := st.next, st.rtc[Wss(st.next) := true];
    var st' := st.(sockets := st.sockets[k := x], socketMap := st.socketMap[x.native := k], rtc := rtc',
                   ledger := Acquired(st.ledger, SocketRef(k)), next := k + 1);
    Read(st, hand, busy);
    Unused(st, k, hand, busy);
    SocketEnters(st, x, hand, busy);
    RtcGrows(st.tasks, st.rtc, rtc');
    RtcGrowsSlots(st.sessions, st.channels, st.rtc, rtc', busy);
    SocketMapsIn(st.sockets, st.socketMap, st.tasks, k, x);
    StillFresh(st, st');
    Hold(st', hand, busy);
  }

  lemma SocketEnters(st: State, x: Socket, hand: multiset<Ref>, busy: set<Ref>)
    requires Inv(st, hand, busy) && x.ref == 2 && x.active && x.wssActive && x.sessions == []
    ensures
      var k, rtc' := st.next, st.rtc[Wss(st.next) := true];
      && Counted(st.sockets[k := x], st.sessions, st.channels, rtc', QueueRefs(st.tasks, st.exec) + hand)
      && Listed(st.sockets[k := x], st.sessions, busy)
      && Booked(st.sockets[k := x], st.sessions, st.channels, rtc', Acquired(st.ledger, SocketRef(k)), k + 1)
  {
    var k := st.next;
    Read(st, hand, busy);
    Unused(st, k, hand, busy);
    SocketAdded(st.sockets, st.sessions, st.channels, st.rtc, k, x, QueueRefs(st.tasks, st.exec) + hand);
    SocketJoins(st.sockets, st.sessions, k, x, busy);
    SocketBooked(st.sockets, st.sessions, st.channels, st.rtc, k, x, st.ledger);
  }

  /** The next name moves past the names given out. */
  lemma StillFresh(st: State, st': State)
    requires Fresh(st.sockets, st.sessions, st.channels, st.socketMap, st.tasks, st.timers, st.openPosted, st.made,
                   st.next)
    requires st.next <= st'.next && st'.openPosted == st.openPosted && st'.tasks == st.tasks && st'.made == st.made
    requires forall n :: n in st'.sockets ==> n in st.sockets || n < st'.next
    requires forall n :: n in st'.sessions ==> n in st.sessions || n < st'.next
    requires forall n :: n in st'.channels ==> n in st.channels || n < st'.next
    requires forall n :: n in st'.timers ==>
               (n in st.timers && st'.timers[n] == st.timers[n]) || (n < st'.next && st'.timers[n].s < st'.next)
    requires forall n :: n in st'.socketMap ==> n in st.socketMap || n < st'.next
    requires forall s :: s in st'.sessions ==>
               (s in st.sessions && st'.sessions[s].members == st.sessions[s].members
                && st'.sessions[s].entry == st.sessions[s].entry)
               || SessionFresh(st'.sessions[s], st'.next)
    ensures Fresh(st'.sockets, st'.sessions, st'.channels, st'.socketMap, st'.tasks, st'.timers, st'.openPosted,
                  st'.made, st'.next)
  {
    forall n: nat
      | n in st'.sockets || n in st'.sessions || n in st'.channels || n in st'.socketMap || n in st'.timers
        || n in st'.openPosted || n in st'.made
      ensures Below(n, st'.next)
    {
      if n in st.sockets || n in st.sessions || n in st.channels || n in st.socketMap || n in st.timers
         || n in st.openPosted || n in st.made
      {
        assert Below(n, st.next);
      }
    }
    forall s | s in st'.sessions ensures SessionFresh(st'.sessions[s], st'.next) {
      if s in st.sessions { assert SessionFresh(st.sessions[s], st.next); }
    }
  }

  // ----- A new session -----------------------------------------------------------------

  lemma SessionAdded(sockets: Sockets, sessions: Sessions, channels: Channels, rtc: RtcMap, rtc': RtcMap, k: nat,
                     s: nat, x: Session, out: multiset<Ref>)
    requires Counted(sockets, sessions, channels, rtc, out) && k in sockets && s !in sessions
    requires out[SessionRef(s)] == 0 && ChannelsOf(channels, s) == {}
    requires Ws(s) !in rtc && Pc(s) !in rtc && rtc' == rtc[Ws(s) := true][Pc(s) := true]
    requires x.socket == k && x.active && x.ref == 3
    ensures Counted(sockets[k := sockets[k].(ref := sockets[k].ref + 1)], sessions[s := x], channels, rtc', out)
  {
    var sockets', sessions' := sockets[k := sockets[k].(ref := sockets[k].ref + 1)], sessions[s := x];
    SessionsOfAdd(sessions, s, x);
    forall j | j in sockets' ensures SocketCounted(j, sockets', sessions', rtc', out) {
      assert SocketCounted(j, sockets, sessions, rtc, out);
    }
    forall z | z in sessions' ensures SessionCounted(z, sockets', sessions', channels, rtc', out) {
      if z != s { assert SessionCounted(z, sockets, sessions, channels, rtc, out); }
    }
    forall c | c in channels ensures ChannelCounted(c, sessions', channels, rtc', out) {
      assert ChannelCounted(c, sessions, channels, rtc, out);
    }
    forall r | r in out ensures Live(sockets', sessions', channels, r) {
      assert Live(sockets, sessions, channels, r);
    }
    forall y | y in rtc' ensures Live(sockets', sessions', channels, RtcRef(y)) {
      if y in rtc { assert Live(sockets, sessions, channels, RtcRef(y)); }
    }
  }

  lemma SessionJoins(st: State, s: nat, x: Session, timers': Timers, k: nat, sockets': Sockets, busy: set<Ref>)
    requires Slotted(st.sessions, st.channels, st.rtc) && Active(st.sessions, st.channels, st.rtc, busy)
    requires Listed(st.sockets, st.sessions, busy) && Timed(st.sessions, st.timers)
    requires s !in st.sessions && ChannelsOf(st.channels, s) == {} && k in st.sockets
    requires forall c :: c in st.channels ==> st.channels[c].session in st.sessions
    requires x == NewSession(k, s + 1) && s + 1 !in st.timers && timers' == st.timers[s + 1 := Timeout(s)]
    requires sockets' == st.sockets[k := st.sockets[k].(ref := st.sockets[k].ref + 1)]
    requires forall t :: t in st.timers ==> st.timers[t].s != s
    ensures Slotted(st.sessions[s := x], st.channels, st.rtc)
    ensures Active(st.sessions[s := x], st.channels, st.rtc, busy + {SessionRef(s)})
    ensures Listed(sockets', st.sessions[s := x], busy + {SessionRef(s)})
    ensures Timed(st.sessions[s := x], timers')
  {
    var sessions', busy' := st.sessions[s := x], busy + {SessionRef(s)};
    forall z | z in sessions'
      ensures SlotsFilled(z, sessions', st.channels, st.rtc) && PartsActive(z, sessions', busy')
      ensures IsListed(z, sockets', sessions', busy') && TimersLive(z, sessions', timers')
    {
      if z != s {
        assert SlotsFilled(z, st.sessions, st.channels, st.rtc) && PartsActive(z, st.sessions, busy);
        assert IsListed(z, st.sockets, st.sessions, busy) && TimersLive(z, st.sessions, st.timers);
      }
    }
    forall c | c in st.channels
      ensures InSlot(c, sessions', st.channels, st.rtc) && ChannelActive(c, sessions', st.channels, st.rtc, busy')
    {
      assert InSlot(c, st.sessions, st.channels, st.rtc) && ChannelActive(c, st.sessions, st.channels, st.rtc, busy);
    }
    forall j | j in sockets' ensures ListSound(j, sockets', sessions', busy') {
      assert ListSound(j, st.sockets, st.sessions, busy);
    }
    forall t | t in timers' ensures TimerOwned(t, sessions', timers') {
      if t != s + 1 { assert TimerOwned(t, st.sessions, st.timers); }
    }
  }

  lemma SessionRecorded(st: State, s: nat, x: Session, hand: multiset<Ref>, busy: set<Ref>)
    requires Inv(st, hand, busy) && s == st.next && x == NewSession(x.socket, s + 1)
    ensures Conserved(st.sessions[s := x], st.tasks, st.exec, st.made, st.destroyed, st.lost)
    ensures Progressing(st.sessions[s := x], QueueRefs(st.tasks, st.exec))
    ensures OpensOnce(st.sessions[s := x], st.channels, st.tasks, st.openPosted)
    ensures Owned(st.sessions[s := x], st.tasks, st.owners, st.made)
  {
    var sessions' := st.sessions[s := x];
    Read(st, hand, busy);
    Unused(st, s, hand, busy);
    HoldersOfAdd(st.sessions, s, x);
    forall z | z in sessions' ensures OwnsNative(z, sessions', st.owners) {
      if z != s { assert OwnsNative(z, st.sessions, st.owners); }
    }
    forall n: nat ensures OnePlace(n, sessions', st.tasks, st.exec, st.made, st.destroyed, st.lost) {
      assert OnePlace(n, st.sessions, st.tasks, st.exec, st.made, st.destroyed, st.lost);
    }
    forall z | z in sessions' ensures Progresses(z, sessions', QueueRefs(st.tasks, st.exec)) {
      if z != s { assert Progresses(z, st.sessions, QueueRefs(st.tasks, st.exec)); }
    }
    forall c | c in st.channels ensures IsMember(c, sessions', st.channels) {
      assert IsMember(c, st.sessions, st.channels);
    }
    forall i: nat | i < |st.tasks| ensures OpensFirst(i, sessions', st.tasks, st.openPosted) {
      assert OpensFirst(i, st.sessions, st.tasks, st.openPosted);
    }
  }

  ghost predicate Acquires(st: State, st': State, k: nat, x: Session)
    requires k in st.sockets
  {
    && x == NewSession(k, st.next + 1)
    && st' == st.(sockets := st.sockets[k := st.sockets[k].(ref := st.sockets[k].ref + 1)],
                  sessions := st.sessions[st.next := x], timers := st.timers[st.next + 1 := Timeout(st.next)],
                  rtc := st.rtc[Ws(st.next) := true][Pc(st.next) := true],
                  ledger := Acquired(st.ledger, SessionRef(st.next)), next := st.next + 2)
  }

  lemma SessionPlaced(st: State, st': State, k: nat, x: Session, hand: multiset<Ref>, busy: set<Ref>)
    requires Inv(st, hand, busy) && k in st.sockets && Acquires(st, st', k, x)
    ensures Slotted(st'.sessions, st'.channels, st'.rtc)
    ensures Active(st'.sessions, st'.channels, st'.rtc, busy + {SessionRef(st.next)})
    ensures Listed(st'.sockets, st'.sessions, busy + {SessionRef(st.next)})
    ensures Timed(st'.sessions, st'.timers)
    ensures Latent(st'.sessions, st'.timers, st.ledger.late, busy + {SessionRef(st.next)})
  {
    var s := st.next;
    Read(st, hand, busy);
    Unused(st, s, hand, busy);
    Unused(st, s + 1, hand, busy);
    forall c | c in st.channels ensures st.channels[c].session in st.sessions {
      assert InSlot(c, st.sessions, st.channels, st.rtc);
    }
    SessionJoins(st, s, x, st'.timers, k, st'.sockets, busy);
    SessionUnpinged(st.sessions, st.timers, st.ledger.late, s, x, busy);
    RtcGrowsSlots(st'.sessions, st.channels, st.rtc, st'.rtc, busy + {SessionRef(s)});
  }

  lemma SessionEntered(sockets: Sockets, sessions: Sessions, channels: Channels, rtc: RtcMap, k: nat, socket: Socket,
                       s: nat, x: Session, ledger: Ledger)
    requires Booked(sockets, sessions, channels, rtc, ledger, s) && k in sockets && s !in sessions
    ensures Booked(sockets[k := socket], sessions[s := x], channels, rtc[Ws(s) := true][Pc(s) := true],
                   Acquired(ledger, SessionRef(s)), s + 2)
  {
    ObjectBooked(sockets, sessions, channels, sockets[k := socket], sessions[s := x], channels, rtc,
                 rtc[Ws(s) := true][Pc(s) := true], ledger, s, s + 2, SessionRef(s));
  }

  lemma SessionBooked(st: State, st': State, k: nat, x: Session, hand: multiset<Ref>, busy: set<Ref>)
    requires Inv(st, hand, busy) && k in st.sockets && Acquires(st, st', k, x)
    ensures Counted(st'.sockets, st'.sessions, st.channels, st'.rtc, QueueRefs(st.tasks, st.exec) + hand)
    ensures Booked(st'.sockets, st'.sessions, st.channels, st'.rtc, st'.ledger, st'.next)
    ensures ClosedLast(st.tasks, st'.rtc)
  {
    var s := st.next;
    Read(st, hand, busy);
    Unused(st, s, hand, busy);
    SessionAdded(st.sockets, st.sessions, st.channels, st.rtc, st'.rtc, k, s, x, QueueRefs(st.tasks, st.exec) + hand);
    SessionEntered(st.sockets, st.sessions, st.channels, st.rtc, k, st'.sockets[k], s, x, st.ledger);
    RtcGrows(st.tasks, st.rtc, st'.rtc);
  }

  /** No ping timer is named after a new session. */
  lemma SessionUnpinged(sessions: Sessions, timers: Timers, late: map<nat, nat>, s: nat, x: Session, busy: set<Ref>)
    requires Latent(sessions, timers, late, busy) && forall t :: t in timers ==> timers[t].s != s
    requires s + 1 !in timers
    ensures Latent(sessions[s := x], timers[s + 1 := Timeout(s)], late, busy + {SessionRef(s)})
  {
    var sessions', timers' := sessions[s := x], timers[s + 1 := Timeout(s)];
    forall t | t in timers' ensures PingLate(t, sessions', timers', late, busy + {SessionRef(s)}) {
      if t != s + 1 { assert PingLate(t, sessions, timers, late, busy); }
    }
    forall z | z in late ensures LateLives(z, sessions', timers', late) {
      assert LateLives(z, sessions, timers, late);
    }
  }

  /** The new session is not in the list of its socket yet. */
  lemma SessionAcquired(st: State, st': State, k: nat, x: Session, hand: multiset<Ref>, busy: set<Ref>)
    requires Inv(st, hand, busy) && k in st.sockets && Acquires(st, st', k, x)
    ensures Inv(st', hand, busy + {SessionRef(st.next)})
  {
    var s, socket := st.next, st.sockets[k].(ref := st.sockets[k].ref + 1);
    Read(st, hand, busy);
    Unused(st, s, hand, busy);
    SessionBooked(st, st', k, x, hand, busy);
    SessionPlaced(st, st', k, x, hand, busy);
    SessionRecorded(st, s, x, hand, busy);
    SocketMapped(st.sockets, st.socketMap, st.tasks, k, socket);
    StillFresh(st, st');
    Hold(st', hand, busy + {SessionRef(s)});
  }

  lemma AcquireSessionKeeps(st: State, k: nat, hand: multiset<Ref>, busy: set<Ref>)
    requires Inv(st, hand, busy) && k in st.sockets
    ensures Inv(AcquireSession(st, k), hand, busy + {SessionRef(st.next)})
  {
    SessionAcquired(st, AcquireSession(st, k), k, AcquireSession(st, k).sessions[st.next], hand, busy);
  }

  /** The session takes its place at the end of the list. */
  lemma NodePushed(st: State, k: nat, s: nat, hand: multiset<Ref>, busy: set<Ref>)
    requires Inv(st, hand, busy) && k in st.sockets && s in st.sessions && SessionRef(s) in busy
    requires SocketRef(k) !in busy && st.sockets[k].active
    requires
      var x := st.sessions[s];
      && x.socket == k && x.active && x.wsActive && x.pcActive && x.entry.None? && x.authResults == 0
      && x.system.None?
    ensures
      var e, socket := st.next, st.sockets[k];
      Inv(st.(next := e + 1, sockets := st.sockets[k := socket.(sessions := socket.sessions + [Node(e, s)])],
              sessions := st.sessions[s := st.sessions[s].(entry := Some(e))]), hand, busy - {SessionRef(s)})
  {
    var e, socket, busy' := st.next, st.sockets[k], busy - {SessionRef(s)};
    var x, y := socket.(sessions := socket.sessions + [Node(e, s)]), st.sessions[s].(entry := Some(e));
    assert Holds(Lists, st, hand, busy) && Holds(Names, st, hand, busy) && Holds(Activity, st, hand, busy);
    assert ListSound(k, st.sockets, st.sessions, busy);
    assert SessionFresh(st.sessions[s], st.next);
    forall c | c in st.channels && st.channels[c].session == s
      ensures ChannelActive(c, st.sessions, st.channels, st.rtc, busy')
    {
      assert ChannelActive(c, st.sessions, st.channels, st.rtc, busy);
    }
    ListChanges(st.sockets, st.sessions, k, x, s, y, busy, busy');
    EntryKeeps(st, st.(next := e + 1, sockets := st.sockets[k := x], sessions := st.sessions[s := y]), k, s, hand,
               busy, busy');
  }

  lemma CreateSessionKeeps(st: State, k: nat, o: Outcome, hand: multiset<Ref>)
    requires Inv(st, hand, {}) && k in st.sockets && st.sockets[k].wssActive
    ensures Inv(CreateSession(st, k, o), hand, {})
  {
    if o.acquire && o.timer {
      var none: set<Ref> := {};
      var s, st1 := st.next, AcquireSession(st, k);
      assert Holds(Lists, st, hand, none);
      assert ListSound(k, st.sockets, st.sessions, none);
      AcquireSessionKeeps(st, k, hand, none);
      assert none + {SessionRef(s)} - {SessionRef(s)} == none;
      if o.push {
        NodePushed(st1, k, s, hand, none + {SessionRef(s)});
      } else {
        SessionCloseKeeps(st1, s, hand, none + {SessionRef(s)});
      }
    }
  }

  // ----- New channels ------------------------------------------------------------------

  /** The channel c of a session that gets one more channel, with the new record y. */
  ghost predicate Joins(st: State, s: nat, index: nat, y: Session)
    requires s in st.sessions
  {
    var x, c := st.sessions[s], st.next;
    && x.active && x.authenticated && x.system.None? && |x.channels| <= SYSTEM_INDEX && x.openedBy == {}
    && (if index == SYSTEM_INDEX
        then |x.members| == |x.channels| && y == x.(ref := x.ref + 1, members := x.members + {c}, system := Some(c))
        else index < |x.channels| && x.channels[index].None? && |x.members| < |x.channels|
             && y == x.(ref := x.ref + 1, members := x.members + {c}, channels := x.channels[index := Some(c)]))
  }

  function NewChannel(s: nat, index: nat): Channel {
    Channel(2, true, true, false, index, s, false)
  }

  lemma ChannelAdded(sockets: Sockets, sessions: Sessions, channels: Channels, rtc: RtcMap, s: nat, y: Session,
                     c: nat, index: nat, out: multiset<Ref>)
    requires Counted(sockets, sessions, channels, rtc, out) && s in sessions && c !in channels && Dc(c) !in rtc
    requires out[ChannelRef(c)] == 0
    requires y.socket == sessions[s].socket && y.active == sessions[s].active && y.ref == sessions[s].ref + 1
    ensures Counted(sockets, sessions[s := y], channels[c := NewChannel(s, index)], rtc[Dc(c) := true], out)
  {
    var sessions', channels', rtc' := sessions[s := y], channels[c := NewChannel(s, index)], rtc[Dc(c) := true];
    ChannelsOfAdd(channels, c, NewChannel(s, index));
    SessionsOfUpdate(sessions, s, y);
    forall j | j in sockets ensures SocketCounted(j, sockets, sessions', rtc', out) {
      assert SocketCounted(j, sockets, sessions, rtc, out);
    }
    forall z | z in sessions' ensures SessionCounted(z, sockets, sessions', channels', rtc', out) {
      assert SessionCounted(z, sockets, sessions, channels, rtc, out);
    }
    forall d | d in channels' ensures ChannelCounted(d, sessions', channels', rtc', out) {
      if d != c { assert ChannelCounted(d, sessions, channels, rtc, out); }
    }
    forall r | r in out ensures Live(sockets, sessions', channels', r) {
      assert Live(sockets, sessions, channels, r);
    }
    forall z | z in rtc' ensures Live(sockets, sessions', channels', RtcRef(z)) {
      if z != Dc(c) { assert Live(sockets, sessions, channels, RtcRef(z)); }
    }
  }

  lemma ChannelJoins(st: State, s: nat, index: nat, y: Session, busy: set<Ref>)
    requires Slotted(st.sessions, st.channels, st.rtc) && Active(st.sessions, st.channels, st.rtc, busy)
    requires s in st.sessions && Joins(st, s, index, y) && st.next !in st.channels
    requires forall z :: z in st.sessions ==> st.sessions[z].system != Some(st.next)
    ensures
      var c := st.next;
      var channels', rtc' := st.channels[c := NewChannel(s, index)], st.rtc[Dc(c) := true];
      Slotted(st.sessions[s := y], channels', rtc') && Active(st.sessions[s := y], channels', rtc', busy)
  {
    var c := st.next;
    var sessions', rtc' := st.sessions[s := y], st.rtc[Dc(c) := true];
    var channels' := st.channels[c := NewChannel(s, index)];
    forall z | z in sessions'
      ensures SlotsFilled(z, sessions', channels', rtc') && PartsActive(z, sessions', busy)
    {
      assert SlotsFilled(z, st.sessions, st.channels, st.rtc) && PartsActive(z, st.sessions, busy);
    }
    forall d | d in channels'
      ensures InSlot(d, sessions', channels', rtc') && ChannelActive(d, sessions', channels', rtc', busy)
    {
      if d != c {
        assert InSlot(d, st.sessions, st.channels, st.rtc) && ChannelActive(d, st.sessions, st.channels, st.rtc, busy);
      }
    }
  }

  lemma NoEventOf(x: Rtc, tasks: seq<Task>, rtc: RtcMap)
    requires ClosedLast(tasks, rtc) && x !in rtc
    ensures forall what :: Event(x, what) !in tasks
  {
    forall i: nat | i < |tasks| ensures tasks[i].Event? ==> tasks[i].source in rtc {
      assert NoneAfterClosed(i, tasks, rtc);
    }
  }

  lemma ChannelRecorded(st: State, s: nat, index: nat, y: Session, hand: multiset<Ref>, busy: set<Ref>)
    requires Inv(st, hand, busy) && s in st.sessions && Joins(st, s, index, y)
    ensures Conserved(st.sessions[s := y], st.tasks, st.exec, st.made, st.destroyed, st.lost)
    ensures Progressing(st.sessions[s := y], QueueRefs(st.tasks, st.exec))
    ensures OpensOnce(st.sessions[s := y], st.channels[st.next := NewChannel(s, index)], st.tasks, st.openPosted)
    ensures Listed(st.sockets, st.sessions[s := y], busy) && Timed(st.sessions[s := y], st.timers)
    ensures Owned(st.sessions[s := y], st.tasks, st.owners, st.made)
    ensures Latent(st.sessions[s := y], st.timers, st.ledger.late, busy)
  {
    Read(st, hand, busy);
    Unused(st, st.next, hand, busy);
    SessionFacts(st, s, hand, busy);
    SessionOwned(st.sessions, st.tasks, st.owners, st.made, s, y);
    SameLatent(st.sessions, st.timers, st.ledger.late, s, y, busy, busy);
    SessionConserved(st.sessions, st.tasks, st.tasks, st.exec, st.exec, st.made, st.destroyed, st.lost, st.lost, s, y);
    SessionProgresses(st.sessions, QueueRefs(st.tasks, st.exec), QueueRefs(st.tasks, st.exec), s, y);
    SessionOpens(st.sessions, st.channels, st.tasks, st.openPosted, s, y);
    SessionListed(st.sockets, st.sessions, s, y, busy, busy);
    SameTimers(st.sessions, st.timers, s, y);
    var channels' := st.channels[st.next := NewChannel(s, index)];
    forall d | d in channels' ensures IsMember(d, st.sessions[s := y], channels') {
      if d != st.next { assert IsMember(d, st.sessions[s := y], st.channels); }
    }
  }

  ghost predicate Adds(st: State, st': State, s: nat, index: nat, y: Session)
    requires s in st.sessions
  {
    && Joins(st, s, index, y)
    && st' == st.(channels := st.channels[st.next := NewChannel(s, index)], sessions := st.sessions[s := y],
                  rtc := st.rtc[Dc(st.next) := true], ledger := Acquired(st.ledger, ChannelRef(st.next)),
                  next := st.next + 1)
  }

  lemma ChannelPlaced(st: State, st': State, s: nat, index: nat, y: Session, hand: multiset<Ref>, busy: set<Ref>)
    requires Inv(st, hand, busy) && s in st.sessions && Adds(st, st', s, index, y)
    ensures Counted(st.sockets, st'.sessions, st'.channels, st'.rtc, QueueRefs(st.tasks, st.exec) + hand)
    ensures Slotted(st'.sessions, st'.channels, st'.rtc) && Active(st'.sessions, st'.channels, st'.rtc, busy)
    ensures ClosedLast(st.tasks, st'.rtc)
  {
    Read(st, hand, busy);
    Unused(st, st.next, hand, busy);
    ChannelAdded(st.sockets, st.sessions, st.channels, st.rtc, s, y, st.next, index,
                 QueueRefs(st.tasks, st.exec) + hand);
    ChannelJoins(st, s, index, y, busy);
    RtcGrows(st.tasks, st.rtc, st'.rtc);
  }

  lemma ChannelBooked(st: State, st': State, s: nat, index: nat, y: Session, hand: multiset<Ref>, busy: set<Ref>)
    requires Inv(st, hand, busy) && s in st.sessions && Adds(st, st', s, index, y)
    ensures Booked(st.sockets, st'.sessions, st'.channels, st'.rtc, st'.ledger, st'.next)
  {
    assert Holds(Books, st, hand, busy);
    Unused(st, st.next, hand, busy);
    ChannelEntered(st.sockets, st.sessions, st.channels, st.rtc, s, y, st.next, NewChannel(s, index), st.ledger);
  }

  lemma ChannelEntered(sockets: Sockets, sessions: Sessions, channels: Channels, rtc: RtcMap, s: nat, y: Session,
                       c: nat, x: Channel, ledger: Ledger)
    requires Booked(sockets, sessions, channels, rtc, ledger, c) && s in sessions && c !in channels
    ensures Booked(sockets, sessions[s := y], channels[c := x], rtc[Dc(c) := true], Acquired(ledger, ChannelRef(c)),
                   c + 1)
  {
    ObjectBooked(sockets, sessions, channels, sockets, sessions[s := y], channels[c := x], rtc, rtc[Dc(c) := true],
                 ledger, c, c + 1, ChannelRef(c));
  }

  lemma ChannelAddedKeeps(st: State, st': State, s: nat, index: nat, y: Session, hand: multiset<Ref>, busy: set<Ref>)
    requires Inv(st, hand, busy) && s in st.sessions && Adds(st, st', s, index, y)
    ensures Inv(st', hand, busy)
  {
    Read(st, hand, busy);
    ChannelPlaced(st, st', s, index, y, hand, busy);
    ChannelBooked(st, st', s, index, y, hand, busy);
    ChannelRecorded(st, s, index, y, hand, busy);
    assert SessionFresh(st.sessions[s], st.next);
    StillFresh(st, st');
    Hold(st', hand, busy);
  }

  /** The channels of a session whose creation has come to the channel of this index. */
  predicate Created(x: Session, n: nat, count: nat) {
    && x.active && x.authenticated && x.system.None? && x.openedBy == {} && x.openCount == 0
    && |x.channels| == n <= SYSTEM_INDEX && |x.members| == count <= n
    && (forall i :: count <= i < n ==> x.channels[i].None?)
    && (forall i :: 0 <= i < count ==> x.channels[i].Some?)
  }

  lemma AddsChannel(st: State, s: nat, n: nat, count: nat)
    requires s in st.sessions && count < n && Created(st.sessions[s], n, count)
    ensures
      var x, c := st.sessions[s], st.next;
      Adds(st, AddChannel(st, s, count), s, count,
           x.(ref := x.ref + 1, members := x.members + {c}, channels := x.channels[count := Some(c)]))
  {
  }

  lemma SlotCreated(x: Session, n: nat, count: nat, c: nat)
    requires count < n && Created(x, n, count) && c !in x.members
    ensures Created(x.(ref := x.ref + 1, members := x.members + {c}, channels := x.channels[count := Some(c)]), n,
                    count + 1)
  {
  }

  lemma AddedOne(st: State, s: nat, count: nat)
    requires s in st.sessions && count > 0
    ensures AddChannels(st, s, count) == AddChannel(AddChannels(st, s, count - 1), s, count - 1)
  {
  }

  lemma {:induction false} AddChannelsKeeps(st: State, s: nat, n: nat, count: nat, hand: multiset<Ref>, busy: set<Ref>)
    requires Inv(st, hand, busy) && s in st.sessions && count <= n && Created(st.sessions[s], n, 0)
    ensures
      var st' := AddChannels(st, s, count);
      Inv(st', hand, busy) && Created(st'.sessions[s], n, count) && st'.sessions[s].timeout == st.sessions[s].timeout
  {
    if count > 0 {
      AddChannelsKeeps(st, s, n, count - 1, hand, busy);
      var st1 := AddChannels(st, s, count - 1);
      var x, c := st1.sessions[s], st1.next;
      AddsChannel(st1, s, n, count - 1);
      Unused(st1, c, hand, busy);
      SlotCreated(x, n, count - 1, c);
      ChannelAddedKeeps(st1, AddChannel(st1, s, count - 1), s, count - 1,
                        x.(ref := x.ref + 1, members := x.members + {c}, channels := x.channels[count - 1 := Some(c)]),
                        hand, busy);
    }
  }

  lemma AddSystemChannelKeeps(st: State, s: nat, n: nat, hand: multiset<Ref>, busy: set<Ref>)
    requires Inv(st, hand, busy) && s in st.sessions && Created(st.sessions[s], n, n)
    ensures
      var st' := AddSystemChannel(st, s);
      && Inv(st', hand, busy) && s in st'.sessions && st'.sessions[s].active
      && st'.sessions[s].timeout == st.sessions[s].timeout && !Stale(s, st'.sessions, st'.channels)
  {
    var x, c := st.sessions[s], st.next;
    var y := x.(ref := x.ref + 1, members := x.members + {c}, system := Some(c));
    assert AddSystemChannel(st, s)
           == st.(channels := st.channels[c := NewChannel(s, SYSTEM_INDEX)], sessions := st.sessions[s := y],
                  rtc := st.rtc[Dc(c) := true], ledger := Acquired(st.ledger, ChannelRef(c)), next := c + 1);
    ChannelAddedKeeps(st, AddSystemChannel(st, s), s, SYSTEM_INDEX, y, hand, busy);
  }

  /** A session without channels gets its empty slots. */
  lemma SlotsResized(st: State, s: nat, n: nat, hand: multiset<Ref>, busy: set<Ref>)
    requires Inv(st, hand, busy) && s in st.sessions && n <= SYSTEM_INDEX
    requires
      var x := st.sessions[s];
      x.authenticated && x.active && x.channels == [] && x.system.None? && x.members == {}
    ensures
      var st' := SetSession(st, s, st.sessions[s].(channels := seq(n, _ => None)));
      Inv(st', hand, busy) && Created(st'.sessions[s], n, 0)
  {
    var y := st.sessions[s].(channels := seq(n, _ => None));
    Read(st, hand, busy);
    SessionFacts(st, s, hand, busy);
    assert |y.openedBy| == 0;
    SessionCounts(st.sockets, st.sessions, st.channels, st.rtc, s, y, QueueRefs(st.tasks, st.exec) + hand,
                  QueueRefs(st.tasks, st.exec) + hand);
    SlotsAppear(st.sessions, st.channels, st.rtc, s, y, busy);
    SessionQuietLayers(st, s, y, busy);
    SessionOwned(st.sessions, st.tasks, st.owners, st.made, s, y);
    SameLatent(st.sessions, st.timers, st.ledger.late, s, y, busy, busy);
    SessionNames(st, SetSession(st, s, y), s);
    SameBooks(st.sockets, st.sessions, st.channels, st.sockets, st.sessions[s := y], st.channels, st.rtc, st.rtc,
              st.ledger, st.next, st.next);
    Hold(SetSession(st, s, y), hand, busy);
  }

  lemma SlotsAppear(sessions: Sessions, channels: Channels, rtc: RtcMap, s: nat, y: Session, busy: set<Ref>)
    requires Slotted(sessions, channels, rtc) && Active(sessions, channels, rtc, busy) && s in sessions
    requires y == sessions[s].(channels := y.channels) && sessions[s].members == {} && sessions[s].channels == []
    requires |y.channels| <= SYSTEM_INDEX && forall i :: 0 <= i < |y.channels| ==> y.channels[i].None?
    requires forall c {:trigger IsMember(c, sessions, channels)} :: c in channels ==> IsMember(c, sessions, channels)
    ensures Slotted(sessions[s := y], channels, rtc) && Active(sessions[s := y], channels, rtc, busy)
  {
    var sessions' := sessions[s := y];
    forall z | z in sessions'
      ensures SlotsFilled(z, sessions', channels, rtc) && PartsActive(z, sessions', busy)
    {
      assert SlotsFilled(z, sessions, channels, rtc) && PartsActive(z, sessions, busy);
    }
    forall c | c in channels
      ensures InSlot(c, sessions', channels, rtc) && ChannelActive(c, sessions', channels, rtc, busy)
    {
      assert InSlot(c, sessions, channels, rtc) && ChannelActive(c, sessions, channels, rtc, busy);
      assert IsMember(c, sessions, channels);
    }
  }

  /** The layers that do not look at the slots. */
  lemma SessionQuietLayers(st: State, s: nat, y: Session, busy: set<Ref>)
    requires Listed(st.sockets, st.sessions, busy) && Timed(st.sessions, st.timers)
    requires Conserved(st.sessions, st.tasks, st.exec, st.made, st.destroyed, st.lost)
    requires Progressing(st.sessions, QueueRefs(st.tasks, st.exec))
    requires OpensOnce(st.sessions, st.channels, st.tasks, st.openPosted)
    requires s in st.sessions && y == st.sessions[s].(channels := y.channels)
    requires IsListed(s, st.sockets, st.sessions, busy)
    requires Progress(y, QueueRefs(st.tasks, st.exec)[SessionRef(s)])
    ensures Listed(st.sockets, st.sessions[s := y], busy) && Timed(st.sessions[s := y], st.timers)
    ensures Conserved(st.sessions[s := y], st.tasks, st.exec, st.made, st.destroyed, st.lost)
    ensures Progressing(st.sessions[s := y], QueueRefs(st.tasks, st.exec))
    ensures OpensOnce(st.sessions[s := y], st.channels, st.tasks, st.openPosted)
  {
    SessionListed(st.sockets, st.sessions, s, y, busy, busy);
    SameTimers(st.sessions, st.timers, s, y);
    SessionConserved(st.sessions, st.tasks, st.tasks, st.exec, st.exec, st.made, st.destroyed, st.lost, st.lost, s, y);
    SessionProgresses(st.sessions, QueueRefs(st.tasks, st.exec), QueueRefs(st.tasks, st.exec), s, y);
    SessionOpens(st.sessions, st.channels, st.tasks, st.openPosted, s, y);
  }

  lemma CreateChannelsKeeps(st: State, s: nat, o: Outcome, hand: multiset<Ref>, busy: set<Ref>)
    requires Inv(st, hand, busy) && s in st.sessions && st.sessions[s].authenticated && st.sessions[s].active
    requires st.sessions[s].channels == [] && st.sessions[s].system.None? && st.sessions[s].members == {}
    ensures
      var st' := CreateChannels(st, s, o).st;
      && Inv(st', hand, busy) && st'.sessions[s].active && st'.sessions[s].timeout == st.sessions[s].timeout
      && !Stale(s, st'.sessions, st'.channels)
  {
    var x := st.sessions[s];
    SessionFacts(st, s, hand, busy);
    if o.resize {
      var n := st.sockets[x.socket].modes;
      assert Holds(Maps, st, hand, busy);
      assert MappedBack(x.socket, st.sockets, st.socketMap);
      SlotsResized(st, s, n, hand, busy);
      var st1 := SetSession(st, s, x.(channels := seq(n, _ => None)));
      var count := if o.acquired < n then o.acquired else n;
      AddChannelsKeeps(st1, s, n, count, hand, busy);
      if o.acquired > n { AddSystemChannelKeeps(AddChannels(st1, s, n), s, n, hand, busy); }
    }
  }

  // ----- The authentication result -----------------------------------------------------

  lemma AuthRecorded(st: State, s: nat, ok: bool, hand: multiset<Ref>, busy: set<Ref>, busy': set<Ref>)
    requires Inv(st, hand, busy) && s in st.sessions && SessionRef(s) !in busy
    requires st.sessions[s].active && !st.sessions[s].authenticated && st.sessions[s].authResults == 0
    requires busy' == if ok then busy else busy + {SessionRef(s)}
    ensures Inv(SetSession(st, s, st.sessions[s].(authenticated := ok, authResults := 1)), hand, busy')
  {
    var y := st.sessions[s].(authenticated := ok, authResults := 1);
    SessionFacts(st, s, hand, busy);
    assert Holds(Activity, st, hand, busy);
    forall c | c in st.channels && st.channels[c].session == s
      ensures ChannelActive(c, st.sessions[s := y], st.channels, st.rtc, busy')
    {
      assert ChannelActive(c, st.sessions, st.channels, st.rtc, busy);
    }
    SessionQuietKeeps(st, SetSession(st, s, y), s, hand, hand, busy, busy');
  }

  lemma ScheduleTimeoutKeeps(st: State, s: nat, hand: multiset<Ref>, busy: set<Ref>)
    requires Inv(st, hand, busy) && s in st.sessions && st.sessions[s].timeout.None?
    ensures Inv(ScheduleTimeout(st, s), hand, busy)
  {
    var t, y := st.next, st.sessions[s].(timeout := Some(st.next));
    TimeoutTimed(st, s, hand, busy);
    Unused(st, t, hand, busy);
    assert Holds(Pings, st, hand, busy);
    TimeoutLatent(st.sessions, st.timers, st.timers[t := Timeout(s)], st.ledger.late, s, y, busy);
    TimersChange(st, ScheduleTimeout(st, s), s, hand, busy);
  }

  lemma TimeoutTimed(st: State, s: nat, hand: multiset<Ref>, busy: set<Ref>)
    requires Inv(st, hand, busy) && s in st.sessions && st.sessions[s].timeout.None?
    ensures Timed(st.sessions[s := st.sessions[s].(timeout := Some(st.next))], st.timers[st.next := Timeout(s)])
    ensures !st.sessions[s].ping.Some? || st.sessions[s].allOpened
  {
    var t := st.next;
    SessionFacts(st, s, hand, busy);
    Unused(st, t, hand, busy);
    assert Holds(Clocks, st, hand, busy);
    SessionTimed(st.sessions, st.timers, st.timers[t := Timeout(s)], s, st.sessions[s].(timeout := Some(t)));
  }

  lemma OnAuthResultKeeps(st: State, s: nat, token: Option<int>, o: Outcome, hand: multiset<Ref>, busy: set<Ref>)
    requires Inv(st, hand, busy) && s in st.sessions && st.sessions[s].active
    requires st.sessions[s].channels == [] && st.sessions[s].system.None? && st.sessions[s].members == {}
    requires if token.Some? then st.sessions[s].authenticated && SessionRef(s) !in busy else SessionRef(s) in busy
    ensures Inv(OnAuthResult(st, s, token, o), hand, busy - {SessionRef(s)})
  {
    UnscheduleTimeoutKeeps(st, s, hand, busy);
    var st1 := UnscheduleTimeout(st, s);
    if token.None? {
      SessionCloseKeeps(st1, s, hand, busy);
    } else {
      assert busy - {SessionRef(s)} == busy;
      CreateChannelsKeeps(st1, s, o, hand, busy);
      var r := CreateChannels(st1, s, o);
      if !r.ok || (token.value > 0 && !o.timer) {
        SessionCloseKeeps(r.st, s, hand, busy);
      } else if token.value > 0 {
        ScheduleTimeoutKeeps(r.st, s, hand, busy);
      }
    }
  }

  /** A session that is not authenticated has seen no result and has no channel. */
  lemma NotYetAuthenticated(st: State, s: nat, hand: multiset<Ref>, busy: set<Ref>)
    requires Inv(st, hand, busy) && s in st.sessions && SessionRef(s) !in busy
    requires st.sessions[s].wsActive && !st.sessions[s].authenticated
    ensures
      var x := st.sessions[s];
      x.active && x.authResults == 0 && x.channels == [] && x.system.None? && x.members == {}
  {
    SessionFacts(st, s, hand, busy);
  }

  lemma FirstResult(st: State, s: nat, token: Option<int>, o: Outcome)
    requires s in st.sessions && !st.sessions[s].authenticated && st.sessions[s].authResults == 0
    ensures WsAuthResult(st, s, token, o)
            == OnAuthResult(SetSession(st, s, st.sessions[s].(authenticated := token.Some?, authResults := 1)), s,
                            token, o)
  {
    assert WithResult(st.sessions[s], token) == st.sessions[s].(authenticated := token.Some?, authResults := 1);
  }

  lemma WsAuthResultKeeps(st: State, s: nat, token: Option<int>, o: Outcome, hand: multiset<Ref>)
    requires Inv(st, hand, {}) && s in st.sessions && st.sessions[s].wsActive && !st.sessions[s].authenticated
    ensures Inv(WsAuthResult(st, s, token, o), hand, {})
  {
    var none: set<Ref> := {};
    var busy := if token.Some? then none else none + {SessionRef(s)};
    NotYetAuthenticated(st, s, hand, none);
    AuthRecorded(st, s, token.Some?, hand, none, busy);
    FirstResult(st, s, token, o);
    OnAuthResultKeeps(SetSession(st, s, st.sessions[s].(authenticated := token.Some?, authResults := 1)), s, token, o,
                      hand, busy);
    assert busy - {SessionRef(s)} == none;
  }
}
