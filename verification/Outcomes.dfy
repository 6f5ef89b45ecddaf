/** What becomes of a session, a channel or a socket at every kind of task, timer and command: who
    is closed by it, and by nothing else; what is recorded, sent on or answered; and which of them
    change nothing at all. */
module Outcomes {
  import opened Wrappers
  import opened Model
  import Frames
  import opened Lifecycle
  import opened Invariants
  import opened Counting
  import opened Updates
  import opened Unref
  import opened Dwindling
  import opened Closing
  import opened Opening
  import opened Handshaking
  import opened Taking
  import opened Connecting
  import opened Executing
  import opened Steps
  import opened Theorems
  import opened Effects
  import opened Isolation

  // ----- Closing a session -------------------------------------------------------------

  /** The session is closed or released, and its native session, if it held one, is requested for
      destruction or lost. */
  ghost predicate Shuts(st: State, st': State, s: nat)
    requires s in st.sessions
  {
    && (s in st'.sessions ==> Effects.Closed(st'.sessions[s]))
    && Requested(st'.exec) + st'.lost == Requested(st.exec) + st.lost + NativeOf(st.sessions[s])
  }

  /** Closing, and then dropping a reference. */
  lemma ShutsAndDrops(st: State, s: nat)
    requires Inv(st, multiset{SessionRef(s)}, {}) && s in st.sessions && st.sessions[s].active && !StaleIn(st, s)
    ensures Shuts(st, UnrefSession(SessionClose(st, s), s), s)
  {
    var st1 := SessionClose(st, s);
    CloseShuts(st, s, multiset{SessionRef(s)}, {});
    if s in st1.sessions { UnrefParts(st1, s); }
  }

  lemma ShutsAlone(st: State, s: nat)
    requires Inv(st, multiset{}, {}) && s in st.sessions && st.sessions[s].active && !StaleIn(st, s)
    ensures Shuts(st, SessionClose(st, s), s)
  {
    CloseShuts(st, s, multiset{}, {});
  }

  /** The closed event of the WS or the PC of a session closes it; if it is closed already, the
      event drops the reference. */
  lemma ClosedTask(st: State, x: Rtc, s: nat, o: Outcome)
    requires Reachable(st) && st.tasks != [] && st.tasks[0] == Event(x, RtcEvent.Closed) && (x == Ws(s) || x == Pc(s))
    requires !StaleIn(st, s)
    ensures s in st.sessions && x !in Loop(st, o).rtc
    ensures st.sessions[s].active ==> Shuts(Taken(st), Loop(st, o), s)
    ensures !st.sessions[s].active ==> DropsOne(Taken(st), Loop(st, o), s)
  {
    ReachableInvariant(st);
    PlainTaken(st);
    assert RtcRef(x) == SessionRef(s);
    assert Loop(st, o) == UnrefSession(SessionClose(Taken(st), s), s);
    if st.sessions[s].active {
      ShutsAndDrops(Taken(st), s);
    } else {
      SessionFacts(Taken(st), s, multiset{SessionRef(s)}, {});
      UnrefDropsOne(Taken(st), s);
    }
    TaskAlone(st, s, o);
    LoopRtc(st, x, s, o);
  }

  lemma LoopRtc(st: State, x: Rtc, s: nat, o: Outcome)
    requires Reachable(st) && st.tasks != [] && st.tasks[0] == Event(x, RtcEvent.Closed) && (x == Ws(s) || x == Pc(s))
    ensures x !in Loop(st, o).rtc
  {
    var st1 := Taken(st);
    CloseRtc(st1, s);
    UnrefSessionDwindles(SessionClose(st1, s), s);
  }

  lemma CloseRtc(st: State, s: nat)
    ensures SessionClose(st, s).rtc == st.rtc
  {
    if s in st.sessions && st.sessions[s].active {
      var x, st1 := st.sessions[s], Deactivate(st, s);
      DeactivateDwindles(st, s);
      CloseSlotsDwindles(st1, x.channels);
      var st2 := CloseSlots(st1, x.channels);
      CloseSlotDwindles(st2, x.system);
      var st3 := CloseSlot(st2, x.system);
      ClosePartsRtc(st3, s);
      UnrefSessionDwindles(CloseParts(st3, s), s);
    }
  }

  lemma ClosePartsRtc(st: State, s: nat)
    ensures CloseParts(st, s).rtc == st.rtc
  {
    if s in st.sessions {
      var st1 := SetSession(st, s, st.sessions[s].(wsActive := false, pcActive := false));
      DestroyNativeDwindles(st1, s);
      RemoveRtc(DestroyNative(st1, s), s);
    }
  }

  lemma RemoveRtc(st: State, s: nat)
    requires s in st.sessions
    ensures RemoveSession(st, s).rtc == st.rtc
  {
  }

  /** A client that opens a data channel under a wrong name has its session closed. */
  lemma MisnamedTask(st: State, s: nat, index: nat, o: Outcome)
    requires Reachable(st) && st.tasks != [] && st.tasks[0] == Event(Pc(s), DataChannel(false, index))
    requires !StaleIn(st, s)
    ensures s in st.sessions
    ensures if st.sessions[s].active then Shuts(Taken(st), Loop(st, o), s) else Loop(st, o) == Taken(st)
  {
    ReachableInvariant(st);
    PlainTaken(st);
    assert RtcRef(Pc(s)) == SessionRef(s);
    LoopMisnamed(st, s, index, o);
    if st.sessions[s].active { ShutsAlone(Taken(st), s); }
  }

  lemma LoopMisnamed(st: State, s: nat, index: nat, o: Outcome)
    requires st.tasks != [] && st.tasks[0] == Event(Pc(s), DataChannel(false, index)) && s in st.sessions
    ensures Loop(st, o) == SessionClose(Taken(st), s)
  {
    var what := DataChannel(false, index);
    assert Loop(st, o) == RtcTask(st.(tasks := st.tasks[1..]), Pc(s), what, o) == PcEvent(Taken(st), s, what);
  }

  /** The native server disconnects: the session that owns the native session is closed. */
  lemma DisconnectTask(st: State, n: nat, o: Outcome)
    requires Reachable(st) && st.tasks != [] && st.tasks[0] == Disconnect(n) && !TaskHazard(st, st.tasks[0])
    ensures n in st.owners && st.owners[n] in st.sessions
    ensures
      var s := st.owners[n];
      if st.sessions[s].active then Shuts(Taken(st), Loop(st, o), s) else Loop(st, o) == Taken(st)
  {
    ReachableInvariant(st);
    PlainTaken(st);
    AddressedOwned(st);
    var s := st.owners[n];
    if st.sessions[s].active { ShutsAlone(Taken(st), s); }
  }

  /** A timeout fires: its session is closed. */
  lemma TimeoutTask(st: State, t: nat)
    requires Reachable(st) && t in st.timers && st.timers[t].Timeout? && !TimerHazard(st, st.timers[t])
    ensures
      var s, st' := st.timers[t].s, Fire(st, t);
      && s in st.sessions && t !in st'.timers
      && (st.sessions[s].active ==> Shuts(st, st', s))
      && (!st.sessions[s].active ==>
            st' == st.(timers := st.timers - {t}, sessions := st.sessions[s := st.sessions[s].(timeout := None)]))
  {
    ReachableInvariant(st);
    TimeoutEffect(st, t);
    var s := st.timers[t].s;
    SessionFacts(st, s, multiset{}, {});
    assert TimerOwned(t, st.sessions, st.timers);
    UnscheduleTimeoutIs(st, s);
    UnscheduleTimeoutKeeps(st, s, multiset{}, {});
    if st.sessions[s].active { CloseShuts(UnscheduleTimeout(st, s), s, multiset{}, {}); }
  }

  /** No native session could be made: the session is closed. */
  lemma FailedTask(st: State, s: nat, o: Outcome)
    requires Reachable(st) && st.tasks != [] && st.tasks[0] == Task.Created(s, None) && !StaleIn(st, s)
    ensures s in st.sessions
    ensures st.sessions[s].active ==> Shuts(Taken(st), Loop(st, o), s)
    ensures !st.sessions[s].active ==> DropsOne(Taken(st), Loop(st, o), s)
  {
    ReachableInvariant(st);
    PlainTaken(st);
    StillWaiting(st, s, None);
    if st.sessions[s].active {
      ShutsAndDrops(Taken(st), s);
    } else {
      SessionFacts(Taken(st), s, multiset{SessionRef(s)}, {});
      UnrefDropsOne(Taken(st), s);
    }
  }

  // ----- Data channels and messages ----------------------------------------------------

  /** The client opens a data channel: the channel in the slot of its index gets it as its incoming
      one, and nothing else changes; without such a channel nothing does. */
  lemma ArrivedTask(st: State, s: nat, index: nat, o: Outcome)
    requires Reachable(st) && st.tasks != [] && st.tasks[0] == Event(Pc(s), DataChannel(true, index))
    ensures s in st.sessions
    ensures
      var slots := st.sessions[s].channels;
      if index < |slots| && slots[index].Some? then
        var c := slots[index].value;
        && c in st.channels && st.channels[c].session == s && st.channels[c].index == index
        && Loop(st, o) == Taken(st).(channels := st.channels[c := st.channels[c].(incoming := true)])
      else Loop(st, o) == Taken(st)
  {
    ReachableInvariant(st);
    PlainTaken(st);
    assert RtcRef(Pc(s)) == SessionRef(s);
    var slots := st.sessions[s].channels;
    if index < |slots| && slots[index].Some? { SlotFacts(st, s, index, multiset{}, {}); }
  }

  /** The system channel has no slot, so that no incoming data channel is ever attached to it: no
      message to it is handled, no ping of a client answered, and no pong measured. */
  lemma SystemChannelDeaf(st: State, c: nat, raw: seq<char>, o: Outcome)
    requires Reachable(st) && c in st.channels && st.channels[c].index == SYSTEM_INDEX
    requires st.tasks != [] && st.tasks[0] == Event(Dc(c), Message(raw))
    ensures !st.channels[c].incoming && Loop(st, o) == Taken(st)
  {
    ReachableInvariant(st);
    ChannelFacts(st, c, multiset{}, {});
  }

  /** A data channel that reports an error is closed, whichever it is, or released if nothing else
      holds it. */
  lemma ErrorTask(st: State, c: nat, o: Outcome)
    requires Reachable(st) && st.tasks != [] && st.tasks[0] == Event(Dc(c), Error)
    ensures c in st.channels
    ensures
      var x, st' := st.channels[c], Loop(st, o);
      if !x.active then st' == Taken(st)
      else
        && x.ref > 1
        && st' == Taken(st).(channels := st.channels[c := x.(active := false, dcActive := false, ref := x.ref - 1)])
  {
    ReachableInvariant(st);
    PlainTaken(st);
    assert RtcRef(Dc(c)) == ChannelRef(c);
    ChannelFacts(st, c, multiset{}, {});
    assert Loop(st, o) == ChannelClose(Taken(st), c);
    if st.channels[c].active { CloseHeld(Taken(st), c); }
  }

  lemma CloseHeld(st: State, c: nat)
    requires c in st.channels && st.channels[c].active && st.channels[c].ref > 1
    ensures
      var x := st.channels[c];
      ChannelClose(st, c) ==
        st.(channels := st.channels[c := x.(active := false, dcActive := false, ref := x.ref - 1)])
  {
    var x := st.channels[c].(active := false, dcActive := false);
    assert st.channels[c := x][c := x.(ref := x.ref - 1)] == st.channels[c := x.(ref := x.ref - 1)];
  }

  /** A reference is dropped from the channel: it keeps everything else, or is released if that was
      the last one. */
  ghost predicate DropsChannel(st: State, st': State, c: nat)
    requires c in st.channels
  {
    var x := st.channels[c];
    && (x.ref > 1 ==> st'.channels == st.channels[c := x.(ref := x.ref - 1)])
    && (x.ref == 1 ==> st'.channels == st.channels - {c})
  }

  lemma UnrefDropsChannel(st: State, c: nat)
    requires c in st.channels && st.channels[c].ref >= 1
    ensures DropsChannel(st, UnrefChannel(st, c), c)
  {
    if st.channels[c].ref <= 1 {
      UnrefKeepsChannels(st.(channels := st.channels - {c}, ledger := Released(st.ledger, ChannelRef(c))),
                         st.channels[c].session);
    }
  }

  /** The DC of a channel closes: the channel leaves its slot, no other slot changes, and it drops the
      reference of its DC. */
  lemma DcClosedTask(st: State, c: nat, o: Outcome)
    requires Reachable(st) && st.tasks != [] && st.tasks[0] == Event(Dc(c), RtcEvent.Closed)
    ensures c in st.channels && st.channels[c].session in st.sessions
    ensures
      var s, i, st' := st.channels[c].session, st.channels[c].index, Loop(st, o);
      var slots := st.sessions[s].channels;
      && DropsChannel(Taken(st), st', c)
      && (s in st'.sessions ==>
            && |st'.sessions[s].channels| == |slots| && st'.sessions[s].system == st.sessions[s].system
            && st'.sessions[s].active == st.sessions[s].active && st'.sessions[s].native == st.sessions[s].native
            && forall j :: 0 <= j < |slots| ==>
                 st'.sessions[s].channels[j] == if j == i then None else slots[j])
  {
    ReachableInvariant(st);
    DcClosedTaken(st, c);
    ChannelFacts(st, c, multiset{}, {});
    assert ChannelCounted(c, st.sessions, st.channels, st.rtc, QueueRefs(st.tasks, st.exec) + multiset{});
    LoopDcClosed(st, c, o);
    DcClosedSlots(st, c, o);
  }

  lemma DcClosedSlots(st: State, c: nat, o: Outcome)
    requires st.tasks != [] && c in st.channels && st.channels[c].ref >= 1 && st.channels[c].session in st.sessions
    ensures
      var s, i := st.channels[c].session, st.channels[c].index;
      var slots, x := st.sessions[s].channels, Emptied(st.sessions[s], i);
      var st' := UnrefChannel(Taken(st).(sessions := st.sessions[s := x],
                                         ledger := Straying(st.ledger, c, st.channels[c])), c);
      DropsChannel(Taken(st), st', c)
      && (s in st'.sessions ==> st'.sessions[s] == x.(ref := st'.sessions[s].ref))
      && forall j :: 0 <= j < |slots| ==> x.channels[j] == if j == i then None else slots[j]
  {
    var s, i := st.channels[c].session, st.channels[c].index;
    var st1 := Taken(st).(sessions := st.sessions[s := Emptied(st.sessions[s], i)],
                          ledger := Straying(st.ledger, c, st.channels[c]));
    UnrefDropsChannel(st1, c);
    UnrefChannelRecord(st1, c);
  }

  lemma LoopDcClosed(st: State, c: nat, o: Outcome)
    requires st.tasks != [] && st.tasks[0] == Event(Dc(c), RtcEvent.Closed)
    requires c in st.channels && st.channels[c].session in st.sessions
    ensures
      var s := st.channels[c].session;
      Loop(st, o) ==
        UnrefChannel(Taken(st).(sessions := st.sessions[s := Emptied(st.sessions[s], st.channels[c].index)],
                                ledger := Straying(st.ledger, c, st.channels[c])), c)
  {
  }

  /** The record of the channel's session changes only in its count. */
  lemma UnrefChannelRecord(st: State, c: nat)
    requires c in st.channels
    ensures
      var s, st' := st.channels[c].session, UnrefChannel(st, c);
      s in st'.sessions ==> s in st.sessions && st'.sessions[s] == st.sessions[s].(ref := st'.sessions[s].ref)
  {
    if st.channels[c].ref <= 1 {
      UnrefRecord(st.(channels := st.channels - {c}, ledger := Released(st.ledger, ChannelRef(c))),
                  st.channels[c].session);
    }
  }

  /** A receive is answered: the channel drops the reference of the receive, and its session keeps
      all but its count. */
  lemma ReceivedTask(st: State, c: nat, o: Outcome)
    requires Reachable(st) && st.tasks != [] && st.tasks[0] == Received(c)
    ensures c in st.channels && DropsChannel(Taken(st), Loop(st, o), c)
    ensures
      var s, st' := st.channels[c].session, Loop(st, o);
      && s in st.sessions && Alone(Taken(st), st', s, st.sessions[s].socket)
      && (s in st'.sessions ==> st'.sessions[s] == st.sessions[s].(ref := st'.sessions[s].ref))
  {
    ReachableInvariant(st);
    PlainTaken(st);
    assert Holds(Counts, Taken(st), multiset{ChannelRef(c)}, {});
    assert Live(st.sockets, st.sessions, st.channels, ChannelRef(c));
    ChannelFacts(st, c, multiset{}, {});
    UnrefDropsChannel(Taken(st), c);
    UnrefChannelRecord(Taken(st), c);
    TaskAlone(st, st.channels[c].session, o);
  }

  // ----- Sockets -----------------------------------------------------------------------

  /** A native socket listens: it gets a socket of its own, active, with its number of channels and
      no session, whose WSS is open; the other sockets stay as they are. */
  lemma ListeningTask(st: State, n: nat, modes: nat, o: Outcome)
    requires Reachable(st) && st.tasks != [] && st.tasks[0] == Listening(n, modes)
    ensures !o.acquire ==> Loop(st, o) == Taken(st)
    ensures o.acquire ==>
              var k, st' := st.next, Loop(st, o);
              && k !in st.sockets && n !in st.socketMap && Wss(k) !in st.rtc
              && st'.sockets.Keys == st.sockets.Keys + {k}
              && (forall j :: j in st.sockets ==> st'.sockets[j] == st.sockets[j])
              && st'.sockets[k].active && st'.sockets[k].wssActive && st'.sockets[k].sessions == []
              && st'.sockets[k].native == n && st'.sockets[k].modes == modes
              && st'.socketMap == st.socketMap[n := k] && Wss(k) in st'.rtc && st'.rtc[Wss(k)]
              && st'.sessions == st.sessions && st'.channels == st.channels && st'.exec == st.exec
  {
    ListeningNew(st, n, modes);
  }

  lemma ListeningNew(st: State, n: nat, modes: nat)
    requires Reachable(st) && st.tasks != [] && st.tasks[0] == Listening(n, modes)
    ensures st.next !in st.sockets && n !in st.socketMap && Wss(st.next) !in st.rtc
  {
    ReachableInvariant(st);
    Unused(st, st.next, multiset{}, {});
    assert Holds(Maps, st, multiset{}, {});
    HeadMaps(st.sockets, st.socketMap, st.tasks);
  }

  /** A client changes nothing unless the WSS is active, and a session and its timer can be had. */
  lemma ClientRefused(st: State, k: nat, o: Outcome)
    requires Reachable(st) && st.tasks != [] && st.tasks[0] == Event(Wss(k), Client)
    ensures k in st.sockets
    ensures !st.sockets[k].wssActive || !o.acquire || !o.timer ==> Loop(st, o) == Taken(st)
  {
    ClientFindsSocket(st, k, o);
  }

  /** The last task of a WSS drops its reference to the socket. */
  lemma WssClosedTask(st: State, k: nat, o: Outcome)
    requires Reachable(st) && st.tasks != [] && st.tasks[0] == Event(Wss(k), RtcEvent.Closed)
    ensures k in st.sockets
    ensures
      var x, st' := st.sockets[k], Loop(st, o);
      && st'.sockets == (if x.ref > 1 then st.sockets[k := x.(ref := x.ref - 1)] else st.sockets - {k})
      && st'.sessions == st.sessions && st'.channels == st.channels
      && (x.ref == 1 ==> x.native !in st'.socketMap)
  {
    ReachableInvariant(st);
    PlainTaken(st);
    assert RtcRef(Wss(k)) == SocketRef(k);
    assert Holds(Counts, st, multiset{}, {});
    assert SocketCounted(k, st.sockets, st.sessions, st.rtc, QueueRefs(st.tasks, st.exec) + multiset{});
  }

  /** Whichever of these sessions is live is closed. */
  ghost predicate AllClosed(nodes: seq<Node>, sessions: Sessions) {
    forall node :: node in nodes && node.session in sessions ==> Effects.Closed(sessions[node.session])
  }

  lemma ClosedOn(nodes: seq<Node>, sessions: Sessions, sessions': Sessions)
    requires nodes != [] && AllClosed(nodes[..|nodes| - 1], sessions)
    requires var s := nodes[|nodes| - 1].session;
             && (s in sessions' ==> Effects.Closed(sessions'[s]))
             && (forall z :: z in sessions' && z != s ==> z in sessions && sessions'[z] == sessions[z])
    ensures AllClosed(nodes, sessions')
  {
    forall node | node in nodes && node.session in sessions' ensures Effects.Closed(sessions'[node.session]) {
      if node.session != nodes[|nodes| - 1].session { assert node in nodes[..|nodes| - 1]; }
    }
  }

  /** The sessions of a native socket that stops, which were active, are closed or released. */
  lemma {:induction false} CloseNodesShut(st: State, k: nat, nodes: seq<Node>, hand: multiset<Ref>, busy: set<Ref>)
    requires Inv(st, hand, busy) && k in st.sockets && SocketRef(k) in hand
    requires nodes <= st.sockets[k].sessions && forall s :: SessionRef(s) !in busy
    requires !StaleAmong(nodes, st.sessions, st.channels)
    ensures AllClosed(nodes, CloseNodes(st, k, nodes).sessions)
  {
    if nodes != [] {
      var first := nodes[..|nodes| - 1];
      FewerStale(first, nodes, st.sessions, st.channels);
      CloseNodesShut(st, k, first, hand, busy);
      LastShuts(st, k, nodes, hand, busy);
      ClosedOn(nodes, CloseNodes(st, k, first).sessions, CloseNodes(st, k, nodes).sessions);
    }
  }

  lemma FewerStale(first: seq<Node>, nodes: seq<Node>, sessions: Sessions, channels: Channels)
    requires first <= nodes && !StaleAmong(nodes, sessions, channels)
    ensures !StaleAmong(first, sessions, channels)
  {
  }

  lemma LastShuts(st: State, k: nat, nodes: seq<Node>, hand: multiset<Ref>, busy: set<Ref>)
    requires Inv(st, hand, busy) && k in st.sockets && SocketRef(k) in hand
    requires nodes <= st.sockets[k].sessions && (forall s :: SessionRef(s) !in busy) && nodes != []
    requires !StaleAmong(nodes, st.sessions, st.channels)
    ensures
      var n := |nodes| - 1;
      var s, st1, st2 := nodes[n].session, CloseNodes(st, k, nodes[..n]), CloseNodes(st, k, nodes);
      (s in st2.sessions ==> Effects.Closed(st2.sessions[s])) && Elsewhere(st1, st2, s)
  {
    var n := |nodes| - 1;
    var list, first, st1 := st.sockets[k].sessions, nodes[..n], CloseNodes(st, k, nodes[..n]);
    CloseNodesKeeps(st, k, first, hand, busy);
    assert list[..n] == first && list[n..][0] == nodes[n] && nodes[n] in nodes;
    LastOnce(st, k, n, hand, busy);
    PopShuts(st1, k, hand, busy);
    assert CloseNodes(st, k, nodes) == PopAndClose(st1, k, nodes[n]);
  }

  lemma PopShuts(st: State, k: nat, hand: multiset<Ref>, busy: set<Ref>)
    requires Inv(st, hand, busy) && k in st.sockets && st.sockets[k].sessions != [] && SocketRef(k) in hand
    requires SessionRef(st.sockets[k].sessions[0].session) !in busy
    requires !Stale(st.sockets[k].sessions[0].session, st.sessions, st.channels)
    ensures
      var s, st' := st.sockets[k].sessions[0].session, PopAndClose(st, k, st.sockets[k].sessions[0]);
      (s in st'.sessions ==> Effects.Closed(st'.sessions[s])) && Elsewhere(st, st', s)
  {
    var s := st.sockets[k].sessions[0].session;
    NodePopped(st, k, hand, busy);
    PopElsewhere(st, k);
    PopAndCloseKeeps(st, k, hand, busy);
    CloseShuts(FirstPopped(st, k), s, hand, busy + {SessionRef(s)});
  }

  /** When a native socket stops, each session of its socket that was active is closed whole. */
  lemma StoppedShuts(st: State, n: nat, o: Outcome)
    requires Reachable(st) && st.tasks != [] && st.tasks[0] == Stopped(n) && n in st.socketMap
    requires !TaskHazard(st, st.tasks[0])
    ensures
      var k, st' := st.socketMap[n], Loop(st, o);
      forall s :: s in st.sessions && st.sessions[s].socket == k && st.sessions[s].active && s in st'.sessions ==>
        Effects.Closed(st'.sessions[s])
  {
    ReachableInvariant(st);
    PlainTaken(st);
    assert Holds(Maps, st, multiset{}, {});
    assert MapsToLive(n, st.sockets, st.socketMap);
    var k, none: set<Ref> := st.socketMap[n], {};
    ListedWhileActive(st);
    if st.sockets[k].active {
      var st0, hand := Taken(st), multiset{SocketRef(k)};
      StaleListed(st0, k, multiset{});
      SocketDeactivated(st0, k, multiset{}, none);
      assert none + {SocketRef(k)} == {SocketRef(k)} && multiset{} + hand == hand;
      var st1 := SetSocket(st0, k, st.sockets[k].(active := false));
      CloseNodesShut(st1, k, st.sockets[k].sessions, hand, {SocketRef(k)});
      CloseNodesKeeps(st1, k, st.sockets[k].sessions, hand, {SocketRef(k)});
      UnrefSocketFrame(SetSocket(CloseNodes(st1, k, st.sockets[k].sessions), k,
                                 CloseNodes(st1, k, st.sockets[k].sessions).sockets[k].(wssActive := false)), k);
    }
  }

  // ----- What changes nothing ----------------------------------------------------------

  /** A description, a candidate or a frame of no kind changes no object, and neither does any frame
      once the WS is closed. */
  lemma FrameIgnored(st: State, s: nat, raw: seq<char>, o: Outcome)
    requires Reachable(st) && st.tasks != [] && st.tasks[0] == Event(Ws(s), Message(raw))
    ensures s in st.sessions
    ensures
      var a := Frames.Dispatch(st.sessions[s].authenticated, raw);
      !st.sessions[s].wsActive || a.Ignore? || a.Description? || a.Candidate? ==> Loop(st, o) == Taken(st)
  {
    WsTaken(st, s, raw);
  }

  /** A second READY changes nothing. */
  lemma ReadyAgain(st: State, s: nat, raw: seq<char>, o: Outcome)
    requires Reachable(st) && st.tasks != [] && st.tasks[0] == Event(Ws(s), Message(raw)) && Frames.READY <= raw
    requires s in st.sessions && st.sessions[s].wsActive && st.sessions[s].authenticated
    requires st.sessions[s].readyReceived
    ensures Loop(st, o) == Taken(st)
  {
    WsTaken(st, s, raw);
    Frames.ReadyExactly(raw);
  }

  /** The events that change anything. */
  predicate Heard(source: Rtc, what: RtcEvent) {
    match source
    case Wss(_) => what.Client? || what.Closed?
    case Ws(_) => what.Message? || what.Closed?
    case Pc(_) => what.DataChannel? || what.Closed?
    case Dc(_) => what.Open? || what.Error? || what.Message? || what.Closed?
  }

  /** The other events, as candidates and states of a PC are, messages and modes from the native
      server, and pings change no object unless they fault. */
  lemma Passing(st: State, o: Outcome)
    requires Reachable(st) && st.tasks != [] && !TaskHazard(st, st.tasks[0])
    requires st.tasks[0].Deliver? || (st.tasks[0].Event? && !Heard(st.tasks[0].source, st.tasks[0].what))
    ensures Loop(st, o) == Taken(st)
  {
    ReachableInvariant(st);
    PlainTaken(st);
    LoopKeeps(st, o);
    if st.tasks[0].Deliver? {
      assert Loop(st, o) in {Taken(st), Fail(Taken(st))};
    } else if st.tasks[0].source.Pc? {
      assert RtcRef(st.tasks[0].source) == SessionRef(st.tasks[0].source.s);
    }
  }

  /** Neither does the native server that asks for a round-trip time. */
  lemma AskPasses(st: State, n: nat)
    requires Enabled(st, AskRtt(n)) && !Hazard(st, AskRtt(n))
    ensures Next(st, AskRtt(n)) == st
  {
  }

  lemma PingPasses(st: State, t: nat)
    requires t in st.timers && st.timers[t].Ping? && !TimerHazard(st, st.timers[t])
    ensures Fire(st, t) == st
  {
  }

  // ----- The executor and the worker ---------------------------------------------------

  /** The executor answers a creation with a native session of its own, if it can be made, and a
      receive with its answer; a destroy destroys that native session and no other. */
  ghost predicate Executed(st: State, st': State, command: Command, o: Outcome)
    requires st.exec != []
  {
    match command
    case Create(s) =>
      if o.native then
        && st.next !in st.made
        && st' == st.(exec := st.exec[1..], tasks := st.tasks + [Task.Created(s, Some(st.next))],
                      made := st.made + {st.next}, next := st.next + 1)
      else st' == st.(exec := st.exec[1..], tasks := st.tasks + [Task.Created(s, None)])
    case Receive(c, _) => st' == st.(exec := st.exec[1..], tasks := st.tasks + [Received(c)])
    case Destroy(n) =>
      && n in st.made && st.destroyed[n] == 0
      && st' == st.(exec := st.exec[1..], destroyed := st.destroyed + multiset{n})
  }

  lemma CommandTask(st: State, o: Outcome)
    requires Reachable(st) && st.exec != []
    ensures Executed(st, Execute(st, o), st.exec[0], o)
  {
    ReachableInvariant(st);
    CommandLive(st);
    Unused(st, st.next, multiset{}, {});
    match st.exec[0]
    case Create(_) =>
    case Receive(_, _) =>
    case Destroy(n) =>
      NativesConserved(st, n);
      Popped(RequestOf, st.exec);
  }

  /** The task that a step of the outside world submits. */
  function PostedBy(st: State, step: Step): Option<Task> {
    match step
    case Post(source, what) => Some(Event(source, what))
    case Listen(modes) => Some(Listening(st.next, modes))
    case Stop(native) => Some(Stopped(native))
    case Kick(native) => Some(Disconnect(native))
    case Call(native, index) => Some(Deliver(native, index))
    case WorkerStep(k) => Some(Event(Wss(k), RtcEvent.Closed))
    case _ => None
  }

  /** Whatever the outside world does submits exactly one task and changes no object; an object posts
      nothing after its closed event, and a data channel opens once. */
  lemma OutsideStep(st: State, step: Step)
    requires Reachable(st) && Enabled(st, step) && PostedBy(st, step).Some?
    ensures
      var st' := Next(st, step);
      && st'.tasks == st.tasks + [PostedBy(st, step).value] && st'.exec == st.exec
      && st'.sockets == st.sockets && st'.sessions == st.sessions && st'.channels == st.channels
      && st'.timers == st.timers && st'.owners == st.owners && st'.socketMap == st.socketMap
      && (step.Stop? ==> st'.listening == st.listening - {step.native})
      && (step.Listen? ==> st'.listening == st.listening + {st.next})
      && ((step.Post? && step.what.Closed?) || step.WorkerStep? ==> !Enabled(st', step))
      && (step.Post? && step.source.Dc? && step.what.Open? ==> !Enabled(st', step))
      && (step.Post? && !step.what.Closed? ==> st'.rtc == st.rtc)
  {
    ReachableInvariant(st);
    match step
    case Post(_, _) =>
    case Listen(_) =>
    case Stop(_) =>
    case Kick(_) =>
    case Call(_, _) =>
    case WorkerStep(_) =>
  }
}
