/** What the operations bring about, seen from outside: a step that did less would fail here. */
module Effects {
  import opened Wrappers
  import opened Model
  import Frames
  import opened Lifecycle
  import opened Invariants
  import opened Counting
  import opened Updates
  import opened Unref
  import opened Dwindling
  import opened Closing
  import opened Opening
  import opened Handshaking
  import opened Taking
  import opened Connecting
  import opened Steps
  import opened Theorems

  // ----- Closing -----------------------------------------------------------------------

  /** A closed session: what is left of it waits for its events. */
  predicate Closed(x: Session) {
    && !x.active && !x.wsActive && !x.pcActive
    && x.entry.None? && x.native.None? && x.ping.None?
  }

  lemma DestroyEffect(st: State, s: nat)
    requires s in st.sessions
    ensures
      var st' := DestroyNative(st, s);
      && st'.sockets == st.sockets && s in st'.sessions && st'.sessions[s] == st.sessions[s].(native := None)
      && Requested(st'.exec) + st'.lost == Requested(st.exec) + st.lost + NativeOf(st.sessions[s])
  {
    DestroyNativeFrame(st, s);
    if st.sessions[s].native.Some? { DestroyRequested(st, s); }
  }

  lemma PartsClosed(st: State, s: nat)
    requires s in st.sessions && !st.sessions[s].active && st.sessions[s].ping.None?
    requires st.sessions[s].socket in st.sockets
    ensures
      var st' := CloseParts(st, s);
      && s in st'.sessions && Closed(st'.sessions[s])
      && Requested(st'.exec) + st'.lost == Requested(st.exec) + st.lost + NativeOf(st.sessions[s])
  {
    var st1 := SetSession(st, s, st.sessions[s].(wsActive := false, pcActive := false));
    DestroyEffect(st1, s);
    RemoveSessionParts(DestroyNative(st1, s), s);
  }

  lemma RemoveSessionParts(st: State, s: nat)
    requires s in st.sessions && st.sessions[s].socket in st.sockets
    ensures
      var st' := RemoveSession(st, s);
      st'.exec == st.exec && st'.lost == st.lost && st'.sessions == st.sessions[s := st.sessions[s].(entry := None)]
  {
    if st.sessions[s].entry.None? { assert st.sessions[s := st.sessions[s].(entry := None)] == st.sessions; }
  }

  lemma UnrefParts(st: State, s: nat)
    requires s in st.sessions && st.sessions[s].native.None?
    ensures
      var st' := UnrefSession(st, s);
      && st'.exec == st.exec && st'.lost == st.lost
      && (s in st'.sessions ==> st'.sessions[s] == st.sessions[s].(ref := st'.sessions[s].ref))
  {
    if st.sessions[s].ref <= 1 {
      UnscheduleTimeoutIs(st, s);
      var st1 := UnscheduleTimeout(st, s);
      var st2 := st1.(sessions := st1.sessions - {s}, ledger := Released(st1.ledger, SessionRef(s)));
      assert DestroyNative(st, s) == st;
      UnrefSocketFrame(st2, st1.sessions[s].socket);
    }
  }

  lemma CloseShuts(st: State, s: nat, hand: multiset<Ref>, busy: set<Ref>)
    requires Inv(st, hand, busy) && s in st.sessions && st.sessions[s].active && !StaleIn(st, s)
    ensures
      var st' := SessionClose(st, s);
      && (s in st'.sessions ==> Closed(st'.sessions[s]))
      && Requested(st'.exec) + st'.lost == Requested(st.exec) + st.lost + NativeOf(st.sessions[s])
  {
    var x := st.sessions[s];
    SessionFacts(st, s, hand, busy);
    CloseChannelsKeeps(st, s, hand, busy);
    var st1 := CloseSlot(CloseSlots(Deactivate(st, s), x.channels), x.system);
    PartsClosed(st1, s);
    UnrefParts(CloseParts(st1, s), s);
  }

  /** Closing an active session leaves it closed or released, off the list of its socket, its
      channels closed, and its native session given up. */
  lemma CloseEffect(st: State, s: nat)
    requires Invariant(st) && s in st.sessions && st.sessions[s].active && !StaleIn(st, s)
    ensures
      var st' := SessionClose(st, s);
      && (s in st'.sessions ==> Closed(st'.sessions[s]))
      && Requested(st'.exec) + st'.lost == Requested(st.exec) + st.lost + NativeOf(st.sessions[s])
      && Invariant(st')
  {
    CloseShuts(st, s, multiset{}, {});
    CloseKeeps(st, s);
  }

  /** In a reachable state, the sessions of a closed socket and the channels of a closed session
      are closed, but for strays. */
  lemma ClosedThroughout(st: State)
    requires Invariant(st)
    ensures forall s :: s in st.sessions && !st.sessions[s].active ==>
              !st.sessions[s].wsActive && !st.sessions[s].pcActive && st.sessions[s].entry.None?
    ensures forall s :: s in st.sessions && st.sessions[s].active ==>
              st.sessions[s].socket in st.sockets && st.sockets[st.sessions[s].socket].active
    ensures forall c :: c in st.channels && st.channels[c].active ==>
              && st.channels[c].session in st.sessions
              && (st.sessions[st.channels[c].session].active || c in st.ledger.strays)
  {
    var none: set<Ref> := {};
    Read(st, multiset{}, none);
    forall s | s in st.sessions
      ensures !st.sessions[s].active ==>
                !st.sessions[s].wsActive && !st.sessions[s].pcActive && st.sessions[s].entry.None?
      ensures st.sessions[s].active ==>
                st.sessions[s].socket in st.sockets && st.sockets[st.sessions[s].socket].active
    {
      SessionFacts(st, s, multiset{}, none);
      assert ListSound(st.sessions[s].socket, st.sockets, st.sessions, none);
    }
    forall c | c in st.channels && st.channels[c].active
      ensures st.channels[c].session in st.sessions
      ensures st.sessions[st.channels[c].session].active || c in st.ledger.strays
    {
      ChannelFacts(st, c, multiset{}, none);
      assert IsStray(c, st.channels, st.rtc, st.ledger);
    }
  }

  /** Closing a socket closes it with all its sessions, or releases it. */
  lemma SocketCloseEffect(st: State, k: nat)
    requires Invariant(st) && k in st.sockets && !StaleOn(st, k)
    ensures
      var st' := SocketClose(st, k);
      && Invariant(st')
      && (k in st'.sockets ==> !st'.sockets[k].active && !st'.sockets[k].wssActive && st'.sockets[k].sessions == [])
      && (forall s :: s in st'.sessions && st'.sessions[s].socket == k ==> !st'.sessions[s].active)
  {
    SocketCloseKeeps(st, k, multiset{});
    SocketShut(st, k);
    ClosedThroughout(SocketClose(st, k));
  }

  lemma SocketShut(st: State, k: nat)
    requires Invariant(st) && k in st.sockets && !StaleOn(st, k)
    ensures
      var st' := SocketClose(st, k);
      k in st'.sockets ==> !st'.sockets[k].active && !st'.sockets[k].wssActive && st'.sockets[k].sessions == []
  {
    var none: set<Ref> := {};
    assert Holds(Lists, st, multiset{}, none);
    assert ListSound(k, st.sockets, st.sessions, none);
    if st.sockets[k].active {
      var nodes, hand := st.sockets[k].sessions, multiset{SocketRef(k)};
      StaleListed(st, k, multiset{});
      SocketDeactivated(st, k, multiset{}, none);
      assert multiset{} + hand == hand && none + {SocketRef(k)} == {SocketRef(k)};
      var st1 := SetSocket(st, k, st.sockets[k].(active := false));
      CloseNodesKeeps(st1, k, nodes, hand, {SocketRef(k)});
      LastUnref(CloseNodes(st1, k, nodes), k);
    }
  }

  lemma LastUnref(st: State, k: nat)
    requires k in st.sockets && !st.sockets[k].active && st.sockets[k].sessions == []
    ensures
      var st' := UnrefSocket(SetSocket(st, k, st.sockets[k].(wssActive := false)), k);
      k in st'.sockets ==> !st'.sockets[k].active && !st'.sockets[k].wssActive && st'.sockets[k].sessions == []
  {
  }

  // ----- Opening -----------------------------------------------------------------------

  /** A client gets a session: active, last in the list of its socket, with its timeout running;
      without an entry in the list it is closed again. */
  predicate ClientHandled(st: State, st': State, k: nat, o: Outcome)
    requires k in st.sockets
  {
    var s, list := st.next, st.sockets[k].sessions;
    && s !in st.sessions
    && (o.push ==>
          && s in st'.sessions && st'.sessions[s].active && st'.sessions[s].socket == k
          && k in st'.sockets && |st'.sockets[k].sessions| == |list| + 1
          && st'.sockets[k].sessions[..|list|] == list && st'.sockets[k].sessions[|list|].session == s
          && st'.sessions[s].wsActive && st'.sessions[s].pcActive && !st'.sessions[s].authenticated
          && st'.sessions[s].timeout.Some? && st'.sessions[s].timeout.value in st'.timers
          && Ws(s) in st'.rtc && Pc(s) in st'.rtc)
    && (!o.push && s in st'.sessions ==> Closed(st'.sessions[s]))
  }

  lemma CreateSessionEffect(st: State, k: nat, o: Outcome)
    requires Invariant(st) && k in st.sockets && st.sockets[k].wssActive && o.acquire && o.timer
    ensures ClientHandled(st, CreateSession(st, k, o), k, o)
  {
    var s := st.next;
    Unused(st, s, multiset{}, {});
    CreateSessionKeeps(st, k, o, multiset{});
    if !o.push {
      var none: set<Ref> := {};
      AcquireSessionKeeps(st, k, multiset{}, none);
      CloseShuts(AcquireSession(st, k), s, multiset{}, none + {SessionRef(s)});
    }
  }

  /** The channels of an authenticated session: one for each mode of the socket and the system
      channel, each of its own, or none is missed for nothing. */
  lemma CreateChannelsEffect(st: State, s: nat, o: Outcome)
    requires Invariant(st) && s in st.sessions && st.sessions[s].authenticated && st.sessions[s].active
    requires st.sessions[s].channels == [] && st.sessions[s].system.None? && st.sessions[s].members == {}
    ensures st.sessions[s].socket in st.sockets
    ensures
      var r, n := CreateChannels(st, s, o), st.sockets[st.sessions[s].socket].modes;
      var x := r.st.sessions[s];
      && Invariant(r.st)
      && (r.ok <==> o.resize && o.acquired > n)
      && (r.ok ==>
            && |x.channels| == n && x.system.Some? && |x.members| == n + 1
            && NewIn(x.channels, r.st.channels, s)
            && NewChannel(r.st.channels, x.system.value, SYSTEM_INDEX, s))
  {
    var none: set<Ref> := {};
    SessionFacts(st, s, multiset{}, none);
    CreateChannelsKeeps(st, s, o, multiset{}, none);
    var n, r := st.sockets[st.sessions[s].socket].modes, CreateChannels(st, s, o);
    if r.ok {
      ChannelsCreated(st, s, o);
      ChannelsNew(st, s, o);
      SessionFacts(r.st, s, multiset{}, none);
      assert Holds(Slots, r.st, multiset{}, none);
      assert SlotsFilled(s, r.st.sessions, r.st.channels, r.st.rtc);
    }
  }

  /** Held by itself and its DC, active, with no incoming data channel, and its gate closed. */
  predicate NewChannel(channels: Channels, c: nat, index: nat, s: nat) {
    c in channels && channels[c] == Channel(2, true, true, false, index, s, false)
  }

  /** The slots up to count hold new channels, named in a row. */
  predicate NewSlots(slots: seq<Option<nat>>, channels: Channels, s: nat, count: nat, first: nat) {
    && count <= |slots|
    && forall i :: 0 <= i < count ==> slots[i] == Some(first + i) && NewChannel(channels, first + i, i, s)
  }

  lemma OneMoreSlot(slots: seq<Option<nat>>, channels: Channels, s: nat, count: nat, first: nat)
    requires NewSlots(slots, channels, s, count, first) && count < |slots|
    ensures
      var c := first + count;
      NewSlots(slots[count := Some(c)], channels[c := Channel(2, true, true, false, count, s, false)], s, count + 1,
               first)
  {
  }

  /** So many new channels more, and their slots filled. */
  predicate Filled(st: State, st': State, s: nat, count: nat) {
    && s in st.sessions && s in st'.sessions && count <= |st.sessions[s].channels| == |st'.sessions[s].channels|
    && st'.next == st.next + count && NewSlots(st'.sessions[s].channels, st'.channels, s, count, st.next)
  }

  lemma {:induction false} AddChannelsNew(st: State, s: nat, count: nat)
    requires s in st.sessions && count <= |st.sessions[s].channels|
    ensures Filled(st, AddChannels(st, s, count), s, count)
  {
    if count > 0 {
      AddChannelsNew(st, s, count - 1);
      AddedOne(st, s, count);
      NextFilled(st, AddChannels(st, s, count - 1), s, count - 1);
    }
  }

  lemma NextFilled(st: State, st1: State, s: nat, count: nat)
    requires Filled(st, st1, s, count) && count < |st.sessions[s].channels|
    ensures Filled(st, AddChannel(st1, s, count), s, count + 1)
  {
    OneMoreSlot(st1.sessions[s].channels, st1.channels, s, count, st.next);
    AddedSlot(st1, s, count);
  }

  lemma AddedSlot(st: State, s: nat, index: nat)
    requires s in st.sessions && index < |st.sessions[s].channels|
    ensures
      var c, st' := st.next, AddChannel(st, s, index);
      && st'.sessions[s].channels == st.sessions[s].channels[index := Some(c)] && st'.next == c + 1
      && st'.channels == st.channels[c := Channel(2, true, true, false, index, s, false)]
  {
  }

  lemma ChannelsNew(st: State, s: nat, o: Outcome)
    requires s in st.sessions && CreateChannels(st, s, o).ok
    ensures
      var st' := CreateChannels(st, s, o).st;
      var x := st'.sessions[s];
      && x.system.Some? && NewChannel(st'.channels, x.system.value, SYSTEM_INDEX, s)
      && NewIn(x.channels, st'.channels, s)
  {
    var n := st.sockets[st.sessions[s].socket].modes;
    var st1 := SetSession(st, s, st.sessions[s].(channels := seq(n, _ => None)));
    AddChannelsNew(st1, s, n);
    SystemNew(AddChannels(st1, s, n), s, n, st1.next);
  }

  /** Each slot holds a new channel of its index. */
  predicate NewIn(slots: seq<Option<nat>>, channels: Channels, s: nat) {
    forall i :: 0 <= i < |slots| ==> slots[i].Some? && NewChannel(channels, slots[i].value, i, s)
  }

  lemma SystemNew(st: State, s: nat, n: nat, first: nat)
    requires s in st.sessions && |st.sessions[s].channels| == n && st.next == first + n
    requires NewSlots(st.sessions[s].channels, st.channels, s, n, first)
    ensures
      var st' := AddSystemChannel(st, s);
      var x := st'.sessions[s];
      && x.system.Some? && NewChannel(st'.channels, x.system.value, SYSTEM_INDEX, s)
      && NewIn(x.channels, st'.channels, s) && |x.channels| == n
  {
    SystemBeside(st.sessions[s].channels, st.channels, s, first);
  }

  lemma SystemBeside(slots: seq<Option<nat>>, channels: Channels, s: nat, first: nat)
    requires NewSlots(slots, channels, s, |slots|, first)
    ensures NewIn(slots, channels[first + |slots| := Channel(2, true, true, false, SYSTEM_INDEX, s, false)], s)
  {
  }

  lemma ChannelsCreated(st: State, s: nat, o: Outcome)
    requires Invariant(st) && s in st.sessions && st.sessions[s].authenticated && st.sessions[s].active
    requires st.sessions[s].channels == [] && st.sessions[s].system.None? && st.sessions[s].members == {}
    requires CreateChannels(st, s, o).ok && st.sessions[s].socket in st.sockets
    ensures
      var r, n := CreateChannels(st, s, o), st.sockets[st.sessions[s].socket].modes;
      var x := r.st.sessions[s];
      |x.channels| == n && x.system.Some? && (forall i :: 0 <= i < n ==> x.channels[i].Some?) && x.active
  {
    var none: set<Ref> := {};
    var n := st.sockets[st.sessions[s].socket].modes;
    assert Holds(Maps, st, multiset{}, none);
    assert MappedBack(st.sessions[s].socket, st.sockets, st.socketMap);
    SlotsResized(st, s, n, multiset{}, none);
    AddChannelsKeeps(SetSession(st, s, st.sessions[s].(channels := seq(n, _ => None))), s, n, n, multiset{}, none);
  }

  /** The outcome of an authentication: a session with all its channels, and a timeout if the
      token has one; or a closed session, whatever went wrong. */
  ghost predicate AuthHandled(st: State, st': State, s: nat, token: Option<int>, o: Outcome)
    requires s in st.sessions
  {
    && st.sessions[s].socket in st.sockets
    && var n := st.sockets[st.sessions[s].socket].modes;
    if token.Some? && o.resize && o.acquired > n && (token.value > 0 ==> o.timer) then
      && s in st'.sessions && Authenticated(st'.sessions[s], n, token.value > 0)
      && NewIn(st'.sessions[s].channels, st'.channels, s)
      && NewChannel(st'.channels, st'.sessions[s].system.value, SYSTEM_INDEX, s)
    else s in st'.sessions ==> Closed(st'.sessions[s])
  }

  lemma AuthEffect(st: State, s: nat, token: Option<int>, o: Outcome)
    requires Invariant(st) && s in st.sessions && st.sessions[s].wsActive && !st.sessions[s].authenticated
    ensures AuthHandled(st, WsAuthResult(st, s, token, o), s, token, o)
  {
    var none: set<Ref> := {};
    var busy := if token.Some? then none else none + {SessionRef(s)};
    SessionFacts(st, s, multiset{}, none);
    NotYetAuthenticated(st, s, multiset{}, none);
    AuthRecorded(st, s, token.Some?, multiset{}, none, busy);
    FirstResult(st, s, token, o);
    ResultEffect(SetSession(st, s, st.sessions[s].(authenticated := token.Some?, authResults := 1)), s, token, o, busy);
  }

  /** Authenticated, with n slots filled and the system channel there. */
  ghost predicate Authenticated(x: Session, n: nat, timed: bool) {
    && x.active && x.authenticated && (x.timeout.Some? <==> timed)
    && |x.channels| == n && x.system.Some? && (forall i :: 0 <= i < n ==> x.channels[i].Some?)
  }

  lemma ResultEffect(st: State, s: nat, token: Option<int>, o: Outcome, busy: set<Ref>)
    requires Inv(st, multiset{}, busy) && s in st.sessions && st.sessions[s].active
    requires st.sessions[s].channels == [] && st.sessions[s].system.None? && st.sessions[s].members == {}
    requires token.Some? ==> st.sessions[s].authenticated && busy == {}
    requires st.sessions[s].socket in st.sockets
    ensures AuthHandled(st, OnAuthResult(st, s, token, o), s, token, o)
  {
    UnscheduleTimeoutKeeps(st, s, multiset{}, busy);
    UnscheduleTimeoutIs(st, s);
    var st1 := UnscheduleTimeout(st, s);
    if token.None? {
      CloseShuts(st1, s, multiset{}, busy);
    } else {
      CreateChannelsEffect(st1, s, o);
      CreateChannelsKeeps(st1, s, o, multiset{}, busy);
      var r := CreateChannels(st1, s, o);
      CloseShuts(r.st, s, multiset{}, busy);
      if r.ok { StaysAuthenticated(st1, s, o); }
    }
  }

  lemma {:induction false} AddChannelsRecord(st: State, s: nat, count: nat)
    requires s in st.sessions
    ensures
      var x, y := st.sessions[s], AddChannels(st, s, count).sessions[s];
      y.authenticated == x.authenticated && y.active == x.active && y.timeout == x.timeout
  {
    if count > 0 { AddChannelsRecord(st, s, count - 1); }
  }

  lemma StaysAuthenticated(st: State, s: nat, o: Outcome)
    requires s in st.sessions && CreateChannels(st, s, o).ok
    ensures
      var x, y := st.sessions[s], CreateChannels(st, s, o).st.sessions[s];
      y.authenticated == x.authenticated && y.active == x.active && y.timeout == x.timeout
  {
    var n := st.sockets[st.sessions[s].socket].modes;
    AddChannelsRecord(SetSession(st, s, st.sessions[s].(channels := seq(n, _ => None))), s, n);
  }

  /** A timeout that fires is gone, and its session closed or released. */
  lemma TimeoutEffect(st: State, t: nat)
    requires Invariant(st) && t in st.timers && st.timers[t].Timeout? && !TimerHazard(st, st.timers[t])
    ensures
      var s, st' := st.timers[t].s, Fire(st, t);
      && s in st.sessions && Invariant(st') && t !in st'.timers
      && (s in st'.sessions ==> !st'.sessions[s].active)
  {
    var s := st.timers[t].s;
    assert Holds(Clocks, st, multiset{}, {});
    assert TimerOwned(t, st.sessions, st.timers);
    FireKeeps(st, t);
    UnscheduleTimeoutKeeps(st, s, multiset{}, {});
    UnscheduleTimeoutIs(st, s);
    var st1 := UnscheduleTimeout(st, s);
    if st1.sessions[s].active { CloseShuts(st1, s, multiset{}, {}); }
    assert Holds(Clocks, Fire(st, t), multiset{}, {});
    if t in Fire(st, t).timers { TimersOnlyGo(st1, s); }
  }

  lemma TimersOnlyGo(st: State, s: nat)
    requires s in st.sessions
    ensures forall t :: t in SessionClose(st, s).timers ==> t in st.timers
  {
    if st.sessions[s].active {
      var x, st1 := st.sessions[s], Deactivate(st, s);
      DeactivateDwindles(st, s);
      CloseSlotsDwindles(st1, x.channels);
      var st2 := CloseSlots(st1, x.channels);
      CloseSlotDwindles(st2, x.system);
      var st3 := CloseSlot(st2, x.system);
      PartsTimers(st3, s);
      UnrefSessionDwindles(CloseParts(st3, s), s);
    }
  }

  lemma PartsTimers(st: State, s: nat)
    ensures CloseParts(st, s).timers == st.timers
  {
    if s in st.sessions {
      var st1 := SetSession(st, s, st.sessions[s].(wsActive := false, pcActive := false));
      DestroyNativeFrame(st1, s);
    }
  }

  // ----- The handshake -----------------------------------------------------------------

  /** READY is remembered; after all openings it stops the timeout and asks for the native
      session. */
  predicate ReadyHandled(st: State, st': State, s: nat)
    requires s in st.sessions
  {
    var x := st.sessions[s];
    var y := x.(readyReceived := true);
    && s in st'.sessions && st'.channels == st.channels
    && (if x.allOpened && !x.readyReceived then
          && st'.sessions[s] == y.(timeout := None, openings := 1, ref := x.ref + B(ExecutorUp(st)))
          && st'.exec == if ExecutorUp(st) then st.exec + [Command.Create(s)] else st.exec
        else st'.sessions[s] == y && st'.exec == st.exec)
  }

  lemma ReadyEffect(st: State, s: nat)
    requires Invariant(st) && s in st.sessions && st.sessions[s].authenticated
    ensures ReadyHandled(st, RecvReady(st, s), s)
  {
    var x := st.sessions[s];
    SessionFacts(st, s, multiset{}, {});
    if x.allOpened && !x.readyReceived {
      ReadyAsks(st, s);
      UnscheduleTimeoutIs(st, s);
    }
  }

  /** An opening is counted; the last one starts the ping, and after READY it stops the timeout
      and asks for the native session. */
  predicate OpenHandled(st: State, st': State, s: nat, c: nat, o: Outcome)
    requires s in st.sessions
  {
    var x := st.sessions[s];
    var y := SeesOpen(x, c);
    var z := y.(allOpened := true, ping := PingOf(st, o));
    && s in st'.sessions && st'.channels == st.channels
    && (x.openCount == |x.channels| && o.timer ==> st.next in st'.timers)
    && (if x.openCount < |x.channels| then st'.sessions[s] == y && st'.exec == st.exec
        else if !x.readyReceived then st'.sessions[s] == z && st'.exec == st.exec
        else
          && st'.sessions[s] == z.(timeout := None, openings := 1, ref := x.ref + B(ExecutorUp(st)))
          && st'.exec == if ExecutorUp(st) then st.exec + [Command.Create(s)] else st.exec)
  }

  lemma OpenEffect(st: State, s: nat, c: nat, o: Outcome)
    requires Invariant(st) && OpenAtHand(st, s, c)
    ensures OpenHandled(st, OnChannelOpened(st, s, c, o), s, c, o)
  {
    OpenNumbers(st, s, c);
    var x := st.sessions[s];
    if x.openCount < |x.channels| {
      assert OnChannelOpened(st, s, c, o) == SetSession(st, s, SeesOpen(x, c));
    } else if x.readyReceived {
      LastOpenAfterReady(st, s, c, o);
    } else {
      LastOpenBeforeReady(st, s, c, o);
    }
  }

  lemma LastOpenBeforeReady(st: State, s: nat, c: nat, o: Outcome)
    requires s in st.sessions && st.sessions[s].openCount == |st.sessions[s].channels| && !st.sessions[s].readyReceived
    ensures OpenHandled(st, OnChannelOpened(st, s, c, o), s, c, o)
  {
    AllOpenedIs(st, s, c, o);
  }

  lemma OpenNumbers(st: State, s: nat, c: nat)
    requires Invariant(st) && OpenAtHand(st, s, c)
    ensures s in st.sessions && st.sessions[s].timeout != Some(st.next)
    ensures
      var x := st.sessions[s];
      x.openCount <= |x.channels| && !x.allOpened && x.ping.None? && x.openings == 0 && x.native.None?
  {
    OpenFacts(st, s, c, SeesOpen(st.sessions[s], c), multiset{}, {});
    OpenCounted(st.sessions[s], c, QueueRefs(st.tasks, st.exec)[SessionRef(s)], 0);
  }

  lemma LastOpenAfterReady(st: State, s: nat, c: nat, o: Outcome)
    requires s in st.sessions && st.sessions[s].openCount == |st.sessions[s].channels| && st.sessions[s].readyReceived
    requires st.sessions[s].native.None? && st.sessions[s].openings == 0 && st.sessions[s].timeout != Some(st.next)
    ensures
      var x, st' := st.sessions[s], OnChannelOpened(st, s, c, o);
      && s in st'.sessions && st'.channels == st.channels
      && st'.sessions[s] == SeesOpen(x, c).(allOpened := true, ping := PingOf(st, o), timeout := None, openings := 1,
                                            ref := x.ref + B(ExecutorUp(st)))
      && st'.exec == Requests(st, s) && (o.timer ==> st.next in st'.timers)
  {
    var y := SeesOpen(st.sessions[s], c).(allOpened := true, ping := PingOf(st, o));
    LastOpenAsks(st, s, c, o);
    AskRecord(UnscheduleTimeout(Pinged(st, s, o), s), s, y.(timeout := None));
    PingedUntimed(st, s, o);
  }

  lemma LastOpenAsks(st: State, s: nat, c: nat, o: Outcome)
    requires s in st.sessions && st.sessions[s].openCount == |st.sessions[s].channels| && st.sessions[s].readyReceived
    requires st.sessions[s].native.None?
    ensures OnChannelOpened(st, s, c, o)
            == Ask(UnscheduleTimeout(Pinged(st, s, o), s), s,
                   SeesOpen(st.sessions[s], c).(allOpened := true, ping := PingOf(st, o), timeout := None))
  {
    AllOpenedIs(st, s, c, o);
    OnReadyAsks(Pinged(st, s, o), s, SeesOpen(st.sessions[s], c).(allOpened := true, ping := PingOf(st, o)));
  }

  lemma PingedUntimed(st: State, s: nat, o: Outcome)
    requires s in st.sessions && st.sessions[s].timeout != Some(st.next)
    ensures
      var st1 := UnscheduleTimeout(Pinged(st, s, o), s);
      && st1.channels == st.channels && Requests(st1, s) == Requests(st, s) && ExecutorUp(st1) == ExecutorUp(st)
      && (o.timer ==> st.next in st1.timers)
  {
    UnscheduleTimeoutIs(Pinged(st, s, o), s);
  }

  lemma AskRecord(st: State, s: nat, y: Session)
    ensures
      var st' := Ask(st, s, y);
      && st'.exec == Requests(st, s) && st'.timers == st.timers && st'.channels == st.channels
      && s in st'.sessions && st'.sessions[s] == y.(ref := y.ref + B(ExecutorUp(st)), openings := y.openings + 1)
  {
  }

  // ----- The gates ---------------------------------------------------------------------

  /** Of the gates, exactly those of the given channels have opened, and nothing else has changed. */
  ghost predicate Enables(channels: Channels, channels': Channels, slots: seq<Option<nat>>) {
    && channels'.Keys == channels.Keys
    && forall c {:trigger channels'[c]} :: c in channels ==>
         channels'[c] == channels[c].(dcReceive := channels[c].dcReceive || Some(c) in slots)
  }

  lemma OneEnabled(st: State, slot: Option<nat>)
    ensures Enables(st.channels, EnableReceiving(st, slot).channels, [slot])
  {
    if slot.Some? && slot.value in st.channels {
      OneOpened(st.channels, slot.value);
    } else {
      assert EnableReceiving(st, slot) == Fail(st);
      NoneOpened(st.channels, slot);
    }
  }

  lemma OneOpened(channels: Channels, c: nat)
    requires c in channels
    ensures Enables(channels, channels[c := channels[c].(dcReceive := true)], [Some(c)])
  {
    var channels' := channels[c := channels[c].(dcReceive := true)];
    forall z | z in channels
      ensures channels'[z] == channels[z].(dcReceive := channels[z].dcReceive || Some(z) in [Some(c)])
    {
      if z != c { assert channels[z] == channels[z].(dcReceive := channels[z].dcReceive); }
    }
  }

  lemma NoneOpened(channels: Channels, slot: Option<nat>)
    requires slot.None? || slot.value !in channels
    ensures Enables(channels, channels, [slot])
  {
    forall z | z in channels
      ensures channels[z] == channels[z].(dcReceive := channels[z].dcReceive || Some(z) in [slot])
    {
      assert channels[z] == channels[z].(dcReceive := channels[z].dcReceive);
    }
  }

  lemma EnablesOn(channels: Channels, channels': Channels, channels'': Channels, slots: seq<Option<nat>>,
                  slots': seq<Option<nat>>)
    requires Enables(channels, channels', slots) && Enables(channels', channels'', slots')
    ensures Enables(channels, channels'', slots + slots')
  {
    forall c | c in channels
      ensures channels''[c] == channels[c].(dcReceive := channels[c].dcReceive || Some(c) in slots + slots')
    {
      assert c in channels';
    }
  }

  lemma {:induction false} SlotsEnabled(st: State, slots: seq<Option<nat>>)
    ensures Enables(st.channels, EnableSlots(st, slots).channels, slots)
  {
    if slots != [] {
      var n := |slots| - 1;
      SlotsEnabled(st, slots[..n]);
      var st1 := EnableSlots(st, slots[..n]);
      OneEnabled(st1, slots[n]);
      EnablesOn(st.channels, st1.channels, EnableSlots(st, slots).channels, slots[..n], [slots[n]]);
      assert slots == slots[..n] + [slots[n]];
    }
  }

  /** Handing over the native session opens exactly the gates of the channels in their slots and
      of the system channel. */
  lemma GatesOpen(st: State, s: nat)
    requires s in st.sessions
    ensures Enables(st.channels, OnConnected(st, s).channels, st.sessions[s].channels + [st.sessions[s].system])
  {
    var x := st.sessions[s];
    var st1 := EnableSlots(st, x.channels);
    SlotsEnabled(st, x.channels);
    OneEnabled(st1, x.system);
    EnablesOn(st.channels, st1.channels, OnConnected(st, s).channels, x.channels, [x.system]);
  }

  /** A message goes to the native session exactly when its channel has an incoming data channel,
      is active and has its gate open, and is not the system channel. */
  predicate MessageHandled(st: State, st': State, c: nat)
    requires c in st.channels
  {
    var x := st.channels[c];
    var through := x.incoming && x.dcActive && x.dcReceive && x.index != SYSTEM_INDEX && ExecutorUp(st);
    && (through ==> x.session in st.sessions && st.sessions[x.session].native.Some?
                    && st' == st.(exec := st.exec + [Receive(c, st.sessions[x.session].native)],
                                  channels := st.channels[c := x.(ref := x.ref + 1)]))
    && (!through ==> st' == st)
  }

  lemma MessageEffect(st: State, c: nat)
    requires Invariant(st) && c in st.channels && Dc(c) in st.rtc
    ensures MessageHandled(st, DcMessage(st, c), c)
  {
    var x := st.channels[c];
    ChannelFacts(st, c, multiset{}, {});
    if x.incoming && x.dcActive && x.dcReceive { assert DcMessage(st, c) == ChannelReceive(st, c); }
  }

  // ----- The tasks ---------------------------------------------------------------------

  lemma WsTaken(st: State, s: nat, raw: seq<char>)
    requires Reachable(st) && st.tasks != [] && st.tasks[0] == Event(Ws(s), Message(raw))
    ensures Invariant(Taken(st)) && s in st.sessions
    ensures forall o :: st.sessions[s].wsActive ==> Loop(st, o) == ProcessMessage(Taken(st), s, raw, o)
  {
    ReachableInvariant(st);
    PlainTaken(st);
    assert RtcRef(Ws(s)) == SessionRef(s);
  }

  /** An AUTH frame with room for a token, to an active session that is not authenticated. */
  lemma AuthTask(st: State, s: nat, raw: seq<char>, o: Outcome)
    requires Reachable(st) && st.tasks != [] && st.tasks[0] == Event(Ws(s), Message(raw))
    requires |raw| > |Frames.AUTH| + 2 && Frames.AUTH <= raw
    requires s in st.sessions && st.sessions[s].wsActive && !st.sessions[s].authenticated
    ensures AuthHandled(Taken(st), Loop(st, o), s, o.token, o)
  {
    WsTaken(st, s, raw);
    Frames.Unauthenticated(raw);
    AuthEffect(Taken(st), s, o.token, o);
  }

  /** A READY frame, to an active and authenticated session. */
  lemma ReadyTask(st: State, s: nat, raw: seq<char>, o: Outcome)
    requires Reachable(st) && st.tasks != [] && st.tasks[0] == Event(Ws(s), Message(raw)) && Frames.READY <= raw
    requires s in st.sessions && st.sessions[s].wsActive && st.sessions[s].authenticated
    ensures ReadyHandled(Taken(st), Loop(st, o), s)
  {
    WsTaken(st, s, raw);
    Frames.ReadyExactly(raw);
    ReadyEffect(Taken(st), s);
  }

  /** The open event of a data channel. */
  lemma OpenTask(st: State, c: nat, o: Outcome)
    requires Reachable(st) && st.tasks != [] && st.tasks[0] == Event(Dc(c), Open)
    ensures c in st.channels && st.channels[c].session in st.sessions
    ensures OpenHandled(Taken(st), Loop(st, o), st.channels[c].session, c, o)
  {
    ReachableInvariant(st);
    DcOpenTaken(st, c);
    OpenEffect(Taken(st), st.channels[c].session, c, o);
  }

  /** The message of a data channel. */
  lemma MessageTask(st: State, c: nat, raw: seq<char>, o: Outcome)
    requires Reachable(st) && st.tasks != [] && st.tasks[0] == Event(Dc(c), Message(raw))
    ensures c in st.channels && MessageHandled(Taken(st), Loop(st, o), c)
  {
    ReachableInvariant(st);
    PlainTaken(st);
    assert RtcRef(Dc(c)) == ChannelRef(c);
    MessageEffect(Taken(st), c);
  }

  /** A client of an active WSS, when the pool and the timers serve. */
  lemma ClientTask(st: State, k: nat, o: Outcome)
    requires Reachable(st) && st.tasks != [] && st.tasks[0] == Event(Wss(k), Client) && o.acquire && o.timer
    requires k in st.sockets && st.sockets[k].wssActive
    ensures ClientHandled(Taken(st), Loop(st, o), k, o)
  {
    ReachableInvariant(st);
    PlainTaken(st);
    CreateSessionEffect(Taken(st), k, o);
  }

  /** The native socket stops: its socket and all sessions of it are closed. */
  lemma StoppedTask(st: State, n: nat, o: Outcome)
    requires Reachable(st) && st.tasks != [] && st.tasks[0] == Stopped(n) && n in st.socketMap
    requires !TaskHazard(st, st.tasks[0])
    ensures
      var k, st' := st.socketMap[n], Loop(st, o);
      && k in st.sockets && st.sockets[k].native == n
      && (k in st'.sockets ==> !st'.sockets[k].active && !st'.sockets[k].wssActive && st'.sockets[k].sessions == [])
      && (forall s :: s in st'.sessions && st'.sessions[s].socket == k ==> !st'.sessions[s].active)
  {
    ReachableInvariant(st);
    PlainTaken(st);
    assert Holds(Maps, st, multiset{}, {});
    assert MapsToLive(n, st.sockets, st.socketMap);
    SocketCloseEffect(Taken(st), st.socketMap[n]);
  }

  lemma UnrefKeepsChannels(st: State, s: nat)
    ensures
      var st' := UnrefSession(st, s);
      && st'.channels == st.channels
      && (s in st'.sessions ==> s in st.sessions && st'.sessions[s] == st.sessions[s].(ref := st'.sessions[s].ref))
  {
    if s in st.sessions && st.sessions[s].ref <= 1 {
      DestroyNativeFrame(st, s);
      var st1 := DestroyNative(st, s);
      UnscheduleTimeoutIs(st1, s);
      var st2 := UnscheduleTimeout(st1, s);
      UnrefSocketFrame(st2.(sessions := st2.sessions - {s}, ledger := Released(st2.ledger, SessionRef(s))),
                       st2.sessions[s].socket);
    }
  }

  /** Only a reference is dropped from the session: it keeps everything else, or is released if
      that was the last one. */
  ghost predicate DropsOne(st: State, st': State, s: nat)
    requires s in st.sessions
  {
    && (s in st'.sessions <==> st.sessions[s].ref > 1)
    && (s in st'.sessions ==> st'.sessions[s] == st.sessions[s].(ref := st.sessions[s].ref - 1))
    && st'.channels == st.channels
  }

  lemma UnrefDropsOne(st: State, s: nat)
    requires s in st.sessions && st.sessions[s].ref >= 1
    ensures DropsOne(st, UnrefSession(st, s), s)
  {
    UnrefKeepsChannels(st, s);
    if st.sessions[s].ref <= 1 {
      var st1 := UnscheduleTimeout(DestroyNative(st, s), s);
      var st2 := st1.(sessions := st1.sessions - {s}, ledger := Released(st1.ledger, SessionRef(s)));
      DestroyNativeFrame(st, s);
      UnrefSocketFrame(st2, st1.sessions[s].socket);
    }
  }

  /** The native session arrives: the session holds it, and exactly the gates of its channels
      have opened. */
  lemma CreatedTask(st: State, s: nat, n: nat, o: Outcome)
    requires Reachable(st) && st.tasks != [] && st.tasks[0] == Task.Created(s, Some(n))
    ensures s in st.sessions
    ensures
      var x, st' := st.sessions[s], Loop(st, o);
      && Enables(st.channels, st'.channels, x.channels + [x.system]) && st'.owners == st.owners[n := s]
      && (s in st'.sessions <==> x.ref > 1)
      && (s in st'.sessions ==> st'.sessions[s] == x.(native := Some(n), ref := x.ref - 1))
  {
    ReachableInvariant(st);
    StillWaiting(st, s, Some(n));
    SessionFacts(st, s, multiset{}, {});
    CreatedEffect(st.(tasks := st.tasks[1..]), s, n);
  }

  lemma CreatedEffect(st: State, s: nat, n: nat)
    requires s in st.sessions && st.sessions[s].ref >= 1
    ensures
      var x, st' := st.sessions[s], UnrefSession(OnCreated(st, s, Some(n)), s);
      && Enables(st.channels, st'.channels, x.channels + [x.system]) && st'.owners == st.owners[n := s]
      && (s in st'.sessions <==> x.ref > 1)
      && (s in st'.sessions ==> st'.sessions[s] == x.(native := Some(n), ref := x.ref - 1))
  {
    var x := st.sessions[s].(native := Some(n));
    var st1 := st.(owners := st.owners[n := s], sessions := st.sessions[s := x]);
    assert OnCreated(st, s, Some(n)) == OnConnected(st1, s);
    GatesOpen(st1, s);
    SessionsUnmoved(st1, s);
    UnrefDropsOne(OnConnected(st1, s), s);
    UnrefSessionDwindles(OnConnected(st1, s), s);
  }

  lemma SessionsUnmoved(st: State, s: nat)
    requires s in st.sessions
    ensures OnConnected(st, s).sessions == st.sessions && OnConnected(st, s).owners == st.owners
  {
    EnableSlotsOnly(st, st.sessions[s].channels);
  }

  /** No native session could be made: the session is closed or released. */
  lemma UncreatedTask(st: State, s: nat, o: Outcome)
    requires Reachable(st) && st.tasks != [] && st.tasks[0] == Task.Created(s, None) && !StaleIn(st, s)
    ensures s in Loop(st, o).sessions ==> !Loop(st, o).sessions[s].active
  {
    ReachableInvariant(st);
    PlainTaken(st);
    StillWaiting(st, s, None);
    var st1 := Taken(st);
    if st1.sessions[s].active { CloseShuts(st1, s, multiset{SessionRef(s)}, {}); }
    UnrefKeepsChannels(SessionClose(st1, s), s);
  }
}
