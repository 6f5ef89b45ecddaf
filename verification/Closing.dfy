/** Closing a channel, a session or a socket keeps the invariant. */
module Closing {
  import opened Wrappers
  import opened Model
  import opened Lifecycle
  import opened Invariants
  import opened Counting
  import opened Updates
  import opened Unref
  import opened Dwindling

  // ----- Channels ----------------------------------------------------------------------

  /** The reference of the active flag passes into the hand. */
  lemma ChannelDeactivated(st: State, c: nat, hand: multiset<Ref>, busy: set<Ref>)
    requires Inv(st, hand, busy) && c in st.channels && st.channels[c].active
    requires st.channels[c].index == SYSTEM_INDEX || Dc(c) in st.rtc
    ensures Inv(SetChannel(st, c, st.channels[c].(active := false, dcActive := false)), hand + multiset{ChannelRef(c)},
                busy)
  {
    var y := st.channels[c].(active := false, dcActive := false);
    ChannelFacts(st, c, hand, busy);
    assert Holds(Natives, st, hand, busy) && Holds(Commands, st, hand, busy);
    ChannelKeeps(st, SetChannel(st, c, y), c, hand, hand + multiset{ChannelRef(c)}, busy);
  }

  lemma ChannelCloseKeeps(st: State, c: nat, hand: multiset<Ref>, busy: set<Ref>)
    requires Inv(st, hand, busy) && c in st.channels && st.channels[c].session in st.sessions
    requires SessionRef(st.channels[c].session) in busy ==> SessionRef(st.channels[c].session) in hand
    requires st.channels[c].index == SYSTEM_INDEX || Dc(c) in st.rtc
    ensures Inv(ChannelClose(st, c), hand, busy)
  {
    if st.channels[c].active {
      ChannelDeactivated(st, c, hand, busy);
      var st1 := SetChannel(st, c, st.channels[c].(active := false, dcActive := false));
      UnrefChannelKeeps(st1, c, hand + multiset{ChannelRef(c)}, busy);
      assert hand + multiset{ChannelRef(c)} - multiset{ChannelRef(c)} == hand;
    }
  }

  /** Channels are only closed, and none is released. */
  ghost predicate OnlyCloses(channels: Channels, channels': Channels) {
    && channels'.Keys == channels.Keys
    && forall c {:trigger channels'[c]} :: c in channels ==>
         && channels'[c] == channels[c].(ref := channels'[c].ref, active := channels'[c].active,
                                         dcActive := channels'[c].dcActive)
         && (channels'[c].active ==> channels[c].active)
  }

  /** A channel whose DC has not closed survives its close. */
  lemma SlotChannelCloses(st: State, c: nat, hand: multiset<Ref>, busy: set<Ref>)
    requires Inv(st, hand, busy) && c in st.channels && Dc(c) in st.rtc
    ensures ChannelClose(st, c).(channels := st.channels) == st
    ensures OnlyCloses(st.channels, ChannelClose(st, c).channels) && !ChannelClose(st, c).channels[c].active
  {
    ChannelFacts(st, c, hand, busy);
  }

  lemma OnlyClosesOn(channels: Channels, channels': Channels, channels'': Channels)
    requires OnlyCloses(channels, channels') && OnlyCloses(channels', channels'')
    ensures OnlyCloses(channels, channels'')
  {
  }

  /** The channel in a slot is closed, and stays. */
  lemma SlotCloses(st: State, s: nat, i: nat, hand: multiset<Ref>, busy: set<Ref>)
    requires Inv(st, hand, busy) && s in st.sessions && SessionRef(s) in hand && i < |st.sessions[s].channels|
    ensures
      var slot := st.sessions[s].channels[i];
      var st' := CloseSlot(st, slot);
      && Inv(st', hand, busy) && st'.(channels := st.channels) == st && OnlyCloses(st.channels, st'.channels)
      && (slot.Some? ==> slot.value in st'.channels && !st'.channels[slot.value].active)
  {
    var slot := st.sessions[s].channels[i];
    if slot.Some? {
      SlotFacts(st, s, i, hand, busy);
      SlotChannelCloses(st, slot.value, hand, busy);
      ChannelCloseKeeps(st, slot.value, hand, busy);
    }
  }

  /** The channels in the first j slots are closed. */
  ghost predicate ClosedUpTo(slots: seq<Option<nat>>, j: nat, channels: Channels)
    requires j <= |slots|
  {
    forall i :: 0 <= i < j && slots[i].Some? && slots[i].value in channels ==> !channels[slots[i].value].active
  }

  lemma {:induction false} CloseSlotsKeeps(st: State, s: nat, j: nat, hand: multiset<Ref>, busy: set<Ref>)
    requires Inv(st, hand, busy) && s in st.sessions && SessionRef(s) in hand
    requires j <= |st.sessions[s].channels|
    ensures
      var st' := CloseSlots(st, st.sessions[s].channels[..j]);
      && Inv(st', hand, busy) && st'.(channels := st.channels) == st && OnlyCloses(st.channels, st'.channels)
      && ClosedUpTo(st.sessions[s].channels, j, st'.channels)
  {
    var slots := st.sessions[s].channels;
    if j > 0 {
      CloseSlotsKeeps(st, s, j - 1, hand, busy);
      var st1 := CloseSlots(st, slots[..j - 1]);
      assert slots[..j][..j - 1] == slots[..j - 1];
      assert CloseSlots(st, slots[..j]) == CloseSlot(st1, slots[j - 1]);
      SlotCloses(st1, s, j - 1, hand, busy);
      var st2 := CloseSlot(st1, slots[j - 1]);
      OnlyClosesOn(st.channels, st1.channels, st2.channels);
      StillClosed(slots, j - 1, st1.channels, st2.channels);
    }
  }

  lemma StillClosed(slots: seq<Option<nat>>, j: nat, channels: Channels, channels': Channels)
    requires j < |slots| && ClosedUpTo(slots, j, channels) && OnlyCloses(channels, channels')
    requires slots[j].Some? && slots[j].value in channels' ==> !channels'[slots[j].value].active
    ensures ClosedUpTo(slots, j + 1, channels')
  {
  }

  lemma SlotFacts(st: State, s: nat, i: nat, hand: multiset<Ref>, busy: set<Ref>)
    requires Inv(st, hand, busy) && s in st.sessions && i < |st.sessions[s].channels|
    requires st.sessions[s].channels[i].Some?
    ensures
      var c := st.sessions[s].channels[i].value;
      c in st.channels && Dc(c) in st.rtc && st.channels[c].session == s && st.channels[c].index == i < SYSTEM_INDEX
  {
    assert Holds(Slots, st, hand, busy);
    assert SlotsFilled(s, st.sessions, st.channels, st.rtc);
  }

  // ----- Sessions ----------------------------------------------------------------------

  /** No session but s changes, and of the channels only those of s may be released. */
  ghost predicate Elsewhere(st: State, st': State, s: nat) {
    && (forall z {:trigger st'.sessions[z]} :: z in st'.sessions && z != s ==>
          z in st.sessions && st'.sessions[z] == st.sessions[z])
    && (forall z {:trigger z in st'.sessions} :: z in st.sessions && z != s ==> z in st'.sessions)
    && (forall c {:trigger st'.channels[c]} :: c in st'.channels ==>
          c in st.channels && st'.channels[c].session == st.channels[c].session)
    && (forall c {:trigger c in st'.channels} :: c in st.channels && st.channels[c].session != s ==>
          c in st'.channels)
  }

  lemma ElsewhereOn(st: State, st1: State, st2: State, s: nat)
    requires Elsewhere(st, st1, s) && Elsewhere(st1, st2, s)
    ensures Elsewhere(st, st2, s)
  {
  }

  /** Whether another session is stale does not change. */
  lemma StaleElsewhere(st: State, st': State, s: nat, z: nat, hand: multiset<Ref>, busy: set<Ref>)
    requires Inv(st, hand, busy) && Elsewhere(st, st', s) && z != s
    ensures Stale(z, st'.sessions, st'.channels) <==> Stale(z, st.sessions, st.channels)
  {
    if z in st.sessions {
      assert Holds(Slots, st, hand, busy);
      assert SlotsFilled(z, st.sessions, st.channels, st.rtc);
    }
  }

  /** Every channel of the session is closed, but for data channels whose DC had closed. */
  ghost predicate Quiet(s: nat, channels: Channels, rtc: RtcMap) {
    forall c :: c in channels && channels[c].session == s && channels[c].active ==>
      channels[c].index != SYSTEM_INDEX && Dc(c) !in rtc
  }

  /** The reference of the active flag passes into the hand. */
  lemma SessionDeactivated(st: State, s: nat, hand: multiset<Ref>, busy: set<Ref>)
    requires Inv(st, hand, busy) && s in st.sessions && st.sessions[s].active
    ensures Inv(SetSession(st, s, st.sessions[s].(active := false)), hand + multiset{SessionRef(s)},
                busy + {SessionRef(s)})
  {
    var y := st.sessions[s].(active := false);
    SessionFacts(st, s, hand, busy);
    assert Holds(Activity, st, hand, busy);
    forall c | c in st.channels && st.channels[c].session == s
      ensures ChannelActive(c, st.sessions[s := y], st.channels, st.rtc, busy + {SessionRef(s)})
    {
      assert ChannelActive(c, st.sessions, st.channels, st.rtc, busy);
    }
    SessionQuietKeeps(st, SetSession(st, s, y), s, hand, hand + multiset{SessionRef(s)}, busy, busy + {SessionRef(s)});
  }

  lemma PingLatent(sessions: Sessions, timers: Timers, late: map<nat, nat>, s: nat, t: nat, busy: set<Ref>)
    requires Latent(sessions, timers, late, busy) && s in sessions && s !in late
    requires t in timers && timers[t] == Ping(s)
    ensures Latent(sessions[s := sessions[s].(ping := None)], timers - {t}, late, busy)
  {
    var sessions', timers' := sessions[s := sessions[s].(ping := None)], timers - {t};
    forall u | u in timers' ensures PingLate(u, sessions', timers', late, busy) {
      assert PingLate(u, sessions, timers, late, busy);
    }
    forall z | z in late ensures LateLives(z, sessions', timers', late) {
      assert LateLives(z, sessions, timers, late);
    }
  }

  lemma PingCleared(st: State, s: nat, t: nat, hand: multiset<Ref>, busy: set<Ref>)
    requires Inv(st, hand, busy) && s in st.sessions && st.sessions[s].ping == Some(t) && s !in st.ledger.late
    ensures Inv(st.(timers := st.timers - {t}, sessions := st.sessions[s := st.sessions[s].(ping := None)]), hand, busy)
  {
    var y, timers' := st.sessions[s].(ping := None), st.timers - {t};
    SessionFacts(st, s, hand, busy);
    assert Holds(Clocks, st, hand, busy) && Holds(Pings, st, hand, busy);
    SessionTimed(st.sessions, st.timers, timers', s, y);
    PingLatent(st.sessions, st.timers, st.ledger.late, s, t, busy);
    TimersChange(st, st.(timers := timers', sessions := st.sessions[s := y]), s, hand, busy);
  }

  lemma DeactivateFrame(st: State, s: nat)
    requires s in st.sessions
    ensures
      var st' := Deactivate(st, s);
      && s in st'.sessions && st'.sessions[s] == st.sessions[s].(active := false, ping := None)
      && st'.channels == st.channels && st'.sockets == st.sockets && st'.rtc == st.rtc && st'.tasks == st.tasks
      && st'.exec == st.exec && st'.lost == st.lost && st'.listening == st.listening
      && Elsewhere(st, st', s)
  {
    var y := st.sessions[s].(active := false);
    OnlyOneElsewhere(st, st.sessions[s := y], st.timers, s);
    if y.ping.Some? {
      Twice(st.sessions, s, y, y.(ping := None));
      OnlyOneElsewhere(st, st.sessions[s := y.(ping := None)], st.timers - {y.ping.value}, s);
    }
  }

  lemma Twice(sessions: Sessions, s: nat, x: Session, y: Session)
    ensures sessions[s := x][s := y] == sessions[s := y]
  {
  }

  lemma OnlyOneElsewhere(st: State, sessions': Sessions, timers': Timers, s: nat)
    requires s in st.sessions && s in sessions' && sessions' == st.sessions[s := sessions'[s]]
    ensures Elsewhere(st, st.(sessions := sessions', timers := timers'), s)
  {
  }

  lemma DeactivateKeeps(st: State, s: nat, hand: multiset<Ref>, busy: set<Ref>)
    requires Inv(st, hand, busy) && s in st.sessions && st.sessions[s].active
    ensures
      var st' := Deactivate(st, s);
      Inv(st', hand + multiset{SessionRef(s)}, busy + {SessionRef(s)})
  {
    assert Holds(Pings, st, hand, busy);
    assert s in st.ledger.late ==> LateLives(s, st.sessions, st.timers, st.ledger.late);
    SessionDeactivated(st, s, hand, busy);
    var st1 := SetSession(st, s, st.sessions[s].(active := false));
    if st1.sessions[s].ping.Some? {
      PingCleared(st1, s, st1.sessions[s].ping.value, hand + multiset{SessionRef(s)}, busy + {SessionRef(s)});
    }
  }

  /** A channel whose DC has closed is released when it is closed, and its session counts one less. */
  lemma ChannelReleases(st: State, c: nat, hand: multiset<Ref>, busy: set<Ref>)
    requires Inv(st, hand, busy) && c in st.channels && st.channels[c].active && st.channels[c].ref == 1
    requires SessionRef(st.channels[c].session) in hand
    ensures
      var s := st.channels[c].session;
      && s in st.sessions && st.sessions[s].ref > 1
      && ChannelClose(st, c) == st.(channels := st.channels - {c}, ledger := Released(st.ledger, ChannelRef(c)),
                                    sessions := st.sessions[s := st.sessions[s].(ref := st.sessions[s].ref - 1)])
  {
    var s := st.channels[c].session;
    ChannelFacts(st, c, hand, busy);
    SessionFacts(st, s, hand, busy);
    assert c in ChannelsOf(st.channels, s);
    assert |ChannelsOf(st.channels, s)| >= 1;
    assert st.channels[c := st.channels[c].(active := false, dcActive := false)] - {c} == st.channels - {c};
  }

  /** Closing a channel changes nothing but that channel and the count of its session. */
  ghost predicate ClosesOne(st: State, st': State, s: nat, c: nat)
    requires s in st.sessions
  {
    && s in st'.sessions
    && st' == st.(channels := st'.channels, ledger := st'.ledger,
                  sessions := st.sessions[s := st.sessions[s].(ref := st'.sessions[s].ref)])
    && (forall d :: d in st'.channels ==>
          && d in st.channels && st'.channels[d].session == st.channels[d].session
          && if d == c then !st'.channels[d].active else st'.channels[d] == st.channels[d])
    && (forall d :: d in st.channels && d != c ==> d in st'.channels)
  }

  lemma ChannelClosesOne(st: State, c: nat, hand: multiset<Ref>, busy: set<Ref>)
    requires Inv(st, hand, busy) && c in st.channels && SessionRef(st.channels[c].session) in hand
    requires st.channels[c].session in st.sessions
    ensures ClosesOne(st, ChannelClose(st, c), st.channels[c].session, c)
  {
    var s := st.channels[c].session;
    ChannelFacts(st, c, hand, busy);
    if st.channels[c].active && st.channels[c].ref == 1 {
      ChannelReleases(st, c, hand, busy);
    } else {
      ChannelStays(st, c, s);
    }
  }

  lemma ChannelStays(st: State, c: nat, s: nat)
    requires c in st.channels && s in st.sessions && (st.channels[c].active ==> st.channels[c].ref > 1)
    ensures ClosesOne(st, ChannelClose(st, c), s, c)
  {
    assert st.sessions[s := st.sessions[s].(ref := st.sessions[s].ref)] == st.sessions;
    if st.channels[c].active {
      var x := st.channels[c].(active := false, dcActive := false);
      assert st.channels[c := x][c := x.(ref := x.ref - 1)] == st.channels[c := x.(ref := x.ref - 1)];
    }
  }

  lemma CloseSystemKeeps(st: State, s: nat, hand: multiset<Ref>, busy: set<Ref>)
    requires Inv(st, hand, busy) && s in st.sessions && SessionRef(s) in hand && !st.sessions[s].active
    requires st.sessions[s].system.Some? && st.sessions[s].system.value in st.channels
    ensures Inv(ChannelClose(st, st.sessions[s].system.value), hand, busy)
    ensures ClosesOne(st, ChannelClose(st, st.sessions[s].system.value), s, st.sessions[s].system.value)
    ensures st.channels[st.sessions[s].system.value].session == s
  {
    var c := st.sessions[s].system.value;
    assert Holds(Slots, st, hand, busy);
    assert SlotsFilled(s, st.sessions, st.channels, st.rtc);
    ChannelCloseKeeps(st, c, hand, busy);
    ChannelClosesOne(st, c, hand, busy);
  }

  /** An active session is deactivated, and the channels in its slots are closed. */
  lemma SlotsClosed(st: State, s: nat, hand: multiset<Ref>, busy: set<Ref>)
    requires Inv(st, hand, busy) && s in st.sessions && st.sessions[s].active
    ensures
      var x := st.sessions[s];
      var st' := CloseSlots(Deactivate(st, s), x.channels);
      && Inv(st', hand + multiset{SessionRef(s)}, busy + {SessionRef(s)}) && Elsewhere(st, st', s)
      && s in st'.sessions && st'.sessions[s] == x.(active := false, ping := None)
      && ClosedUpTo(x.channels, |x.channels|, st'.channels) && st'.channels.Keys == st.channels.Keys
      && st'.sockets == st.sockets && st'.tasks == st.tasks && st'.rtc == st.rtc && st'.exec == st.exec
      && st'.lost == st.lost && st'.listening == st.listening
  {
    var x, st1 := st.sessions[s], Deactivate(st, s);
    var hand', busy' := hand + multiset{SessionRef(s)}, busy + {SessionRef(s)};
    DeactivateKeeps(st, s, hand, busy);
    DeactivateFrame(st, s);
    assert x.channels[..|x.channels|] == x.channels;
    CloseSlotsKeeps(st1, s, |x.channels|, hand', busy');
    ElsewhereOn(st, st1, CloseSlots(st1, x.channels), s);
  }

  /** All channels of an active session are closed along with it. */
  lemma CloseChannelsKeeps(st: State, s: nat, hand: multiset<Ref>, busy: set<Ref>)
    requires Inv(st, hand, busy) && s in st.sessions && st.sessions[s].active
    requires !Stale(s, st.sessions, st.channels)
    ensures
      var x := st.sessions[s];
      var st' := CloseSlot(CloseSlots(Deactivate(st, s), x.channels), x.system);
      && Elsewhere(st, st', s)
      && Inv(st', hand + multiset{SessionRef(s)}, busy + {SessionRef(s)})
      && s in st'.sessions && st'.sessions[s] == x.(active := false, ping := None, ref := st'.sessions[s].ref)
      && Quiet(s, st'.channels, st'.rtc) && st'.sockets == st.sockets && st'.tasks == st.tasks && st'.rtc == st.rtc
      && st'.exec == st.exec && st'.lost == st.lost && st'.listening == st.listening
  {
    var x := st.sessions[s];
    var hand', busy' := hand + multiset{SessionRef(s)}, busy + {SessionRef(s)};
    SlotsClosed(st, s, hand, busy);
    var st1 := CloseSlots(Deactivate(st, s), x.channels);
    if x.system.Some? { CloseSystemKeeps(st1, s, hand', busy'); }
    var st2 := CloseSlot(st1, x.system);
    ElsewhereOn(st, st1, st2, s);
    QuietNow(st2, s, hand', busy');
  }

  /** Once the channels in the slots and the system channel are closed, so are all but strays. */
  lemma QuietNow(st: State, s: nat, hand: multiset<Ref>, busy: set<Ref>)
    requires Inv(st, hand, busy) && s in st.sessions
    requires
      var x := st.sessions[s];
      && ClosedUpTo(x.channels, |x.channels|, st.channels)
      && (x.system.Some? && x.system.value in st.channels ==> !st.channels[x.system.value].active)
    ensures Quiet(s, st.channels, st.rtc)
  {
    forall c | c in st.channels && st.channels[c].session == s && st.channels[c].active
      ensures st.channels[c].index != SYSTEM_INDEX && Dc(c) !in st.rtc
    {
      ChannelFacts(st, c, hand, busy);
    }
  }


  ghost predicate Distinct(nodes: seq<Node>) {
    forall i, j :: 0 <= i < j < |nodes| ==> nodes[i] != nodes[j]
  }

  lemma {:induction false} RemoveNodeRemoves(nodes: seq<Node>, node: Node)
    requires Distinct(nodes)
    ensures Distinct(RemoveNode(nodes, node))
    ensures forall n :: n in RemoveNode(nodes, node) <==> n in nodes && n != node
  {
    if nodes != [] {
      if nodes[0] == node {
        assert nodes == [node] + nodes[1..];
        assert forall i :: 1 <= i < |nodes| ==> nodes[i] != nodes[0];
      } else {
        var rest := RemoveNode(nodes[1..], node);
        RemoveNodeRemoves(nodes[1..], node);
        assert nodes == [nodes[0]] + nodes[1..];
        forall j | 0 <= j < |rest| ensures rest[j] != nodes[0] {
          assert rest[j] in nodes[1..];
        }
      }
    }
  }

  /** The list without the node of a session that has no entry any more. */
  lemma NodeLeaves(sockets: Sockets, sessions: Sessions, k: nat, s: nat, busy: set<Ref>)
    requires Listed(sockets, sessions, busy) && k in sockets && s in sessions && SessionRef(s) in busy
    requires sessions[s].socket == k && sessions[s].entry.Some?
    ensures
      var nodes := RemoveNode(sockets[k].sessions, Node(sessions[s].entry.value, s));
      Listed(sockets[k := sockets[k].(sessions := nodes)], sessions[s := sessions[s].(entry := None)], busy)
  {
    var node := Node(sessions[s].entry.value, s);
    var x := sockets[k].(sessions := RemoveNode(sockets[k].sessions, node));
    assert ListSound(k, sockets, sessions, busy);
    RemoveNodeRemoves(sockets[k].sessions, node);
    ListChanges(sockets, sessions, k, x, s, sessions[s].(entry := None), busy, busy);
  }

  lemma EntryRemoved(st: State, s: nat, hand: multiset<Ref>, busy: set<Ref>)
    requires Inv(st, hand, busy) && s in st.sessions && SessionRef(s) in busy && st.sessions[s].entry.Some?
    requires st.sessions[s].socket in st.sockets
    ensures Inv(RemoveSession(st, s), hand, busy)
  {
    var k, node := st.sessions[s].socket, Node(st.sessions[s].entry.value, s);
    var x := st.sockets[k].(sessions := RemoveNode(st.sockets[k].sessions, node));
    assert Holds(Lists, st, hand, busy) && Holds(Names, st, hand, busy) && Holds(Activity, st, hand, busy);
    assert SessionFresh(st.sessions[s], st.next);
    NodeLeaves(st.sockets, st.sessions, k, s, busy);
    EntryKeeps(st, SetSession(SetSocket(st, k, x), s, st.sessions[s].(entry := None)), k, s, hand, busy, busy);
  }

  lemma PartsDeactivated(st: State, s: nat, hand: multiset<Ref>, busy: set<Ref>)
    requires Inv(st, hand, busy) && s in st.sessions && SessionRef(s) in busy && !st.sessions[s].active
    ensures Inv(SetSession(st, s, st.sessions[s].(wsActive := false, pcActive := false)), hand, busy)
  {
    var y := st.sessions[s].(wsActive := false, pcActive := false);
    SessionFacts(st, s, hand, busy);
    SessionOnlyKeeps(st, SetSession(st, s, y), s, hand, hand, busy);
  }

  /** The session is no longer half closed. */
  lemma ClosedWhole(st: State, s: nat, hand: multiset<Ref>, busy: set<Ref>)
    requires Inv(st, hand, busy) && s in st.sessions && Quiet(s, st.channels, st.rtc)
    requires
      var x := st.sessions[s];
      !x.active && !x.wsActive && !x.pcActive && x.entry.None? && x.ping.None?
    ensures Inv(st, hand, busy - {SessionRef(s)})
  {
    var busy' := busy - {SessionRef(s)};
    Read(st, hand, busy);
    forall z | z in st.sessions
      ensures PartsActive(z, st.sessions, busy') && IsListed(z, st.sockets, st.sessions, busy')
    {
      assert PartsActive(z, st.sessions, busy);
      assert IsListed(z, st.sockets, st.sessions, busy);
    }
    forall c | c in st.channels ensures ChannelActive(c, st.sessions, st.channels, st.rtc, busy') {
      assert ChannelActive(c, st.sessions, st.channels, st.rtc, busy);
    }
    forall k | k in st.sockets ensures ListSound(k, st.sockets, st.sessions, busy') {
      assert ListSound(k, st.sockets, st.sessions, busy);
    }
    forall t | t in st.timers ensures PingLate(t, st.sessions, st.timers, st.ledger.late, busy') {
      assert PingLate(t, st.sessions, st.timers, st.ledger.late, busy);
      assert TimerOwned(t, st.sessions, st.timers);
    }
    Hold(st, hand, busy');
  }

  /** Leaving the socket's list is the last part of a close. */
  lemma RemoveSessionKeeps(st: State, s: nat, hand: multiset<Ref>, busy: set<Ref>)
    requires Inv(st, hand, busy) && s in st.sessions && SessionRef(s) in busy && Quiet(s, st.channels, st.rtc)
    requires !st.sessions[s].active && !st.sessions[s].wsActive && !st.sessions[s].pcActive
    requires st.sessions[s].ping.None?
    ensures Inv(RemoveSession(st, s), hand, busy - {SessionRef(s)})
  {
    SessionFacts(st, s, hand, busy);
    if st.sessions[s].entry.Some? { EntryRemoved(st, s, hand, busy); }
    ClosedWhole(RemoveSession(st, s), s, hand, busy);
  }

  lemma ClosePartsKeeps(st: State, s: nat, hand: multiset<Ref>, busy: set<Ref>)
    requires Inv(st, hand, busy) && s in st.sessions && SessionRef(s) in busy && !st.sessions[s].active
    requires Quiet(s, st.channels, st.rtc) && st.sessions[s].ping.None?
    ensures Inv(CloseParts(st, s), hand, busy - {SessionRef(s)})
  {
    var st1 := SetSession(st, s, st.sessions[s].(wsActive := false, pcActive := false));
    PartsDeactivated(st, s, hand, busy);
    DestroyNativeKeeps(st1, s, hand, busy);
    RemoveSessionKeeps(DestroyNative(st1, s), s, hand, busy);
  }

  lemma ClosePartsElsewhere(st: State, s: nat)
    requires s in st.sessions
    ensures Elsewhere(st, CloseParts(st, s), s)
  {
    var st1 := SetSession(st, s, st.sessions[s].(wsActive := false, pcActive := false));
    DestroyNativeFrame(st1, s);
    RemoveSessionElsewhere(DestroyNative(st1, s), s);
    ElsewhereOn(st, DestroyNative(st1, s), CloseParts(st, s), s);
  }

  lemma RemoveSessionElsewhere(st: State, s: nat)
    requires s in st.sessions
    ensures Elsewhere(st, RemoveSession(st, s), s)
  {
  }

  lemma UnrefSessionElsewhere(st: State, s: nat)
    ensures Elsewhere(st, UnrefSession(st, s), s)
  {
    if s in st.sessions && st.sessions[s].ref <= 1 {
      DestroyNativeFrame(st, s);
      var st1 := UnscheduleTimeout(DestroyNative(st, s), s);
      assert Elsewhere(st, st1, s);
      var st2 := st1.(sessions := st1.sessions - {s}, ledger := Released(st1.ledger, SessionRef(s)));
      UnrefSocketFrame(st2, st1.sessions[s].socket);
    }
  }

  /** A session that was half closed before is closed whole. */
  lemma ActiveCloseKeeps(st: State, s: nat, hand: multiset<Ref>, busy: set<Ref>)
    requires Inv(st, hand, busy) && s in st.sessions && st.sessions[s].active
    requires !Stale(s, st.sessions, st.channels)
    ensures Inv(SessionClose(st, s), hand, busy - {SessionRef(s)})
    ensures Elsewhere(st, SessionClose(st, s), s)
  {
    var x, hand' := st.sessions[s], hand + multiset{SessionRef(s)};
    CloseChannelsKeeps(st, s, hand, busy);
    var st1 := CloseSlot(CloseSlots(Deactivate(st, s), x.channels), x.system);
    ClosePartsKeeps(st1, s, hand', busy + {SessionRef(s)});
    ClosePartsElsewhere(st1, s);
    assert busy + {SessionRef(s)} - {SessionRef(s)} == busy - {SessionRef(s)};
    var st2 := CloseParts(st1, s);
    ElsewhereOn(st, st1, st2, s);
    UnrefSessionKeeps(st2, s, hand', busy - {SessionRef(s)});
    UnrefSessionElsewhere(st2, s);
    ElsewhereOn(st, st2, UnrefSession(st2, s), s);
    assert hand' - multiset{SessionRef(s)} == hand;
  }

  lemma SessionCloseKeeps(st: State, s: nat, hand: multiset<Ref>, busy: set<Ref>)
    requires Inv(st, hand, busy) && s in st.sessions && !Stale(s, st.sessions, st.channels)
    requires st.sessions[s].active || SessionRef(s) !in busy
    ensures Inv(SessionClose(st, s), hand, busy - {SessionRef(s)})
    ensures Elsewhere(st, SessionClose(st, s), s)
  {
    if st.sessions[s].active {
      ActiveCloseKeeps(st, s, hand, busy);
    } else {
      assert busy - {SessionRef(s)} == busy;
    }
  }

  /** Closing a stale session follows the pointer to its released system channel. */
  lemma SessionCloseFaults(st: State, s: nat, hand: multiset<Ref>, busy: set<Ref>)
    requires Inv(st, hand, busy) && Stale(s, st.sessions, st.channels)
    ensures SessionClose(st, s).fault
  {
    var x := st.sessions[s];
    SlotsClosed(st, s, hand, busy);
    var st2 := CloseSlots(Deactivate(st, s), x.channels);
    assert CloseSlot(st2, x.system) == Fail(st2);
    ClosePartsSteady(Fail(st2), s, {});
    UnrefSessionDwindles(CloseParts(Fail(st2), s), s);
  }

  // ----- Sockets -----------------------------------------------------------------------

  lemma UnlistedCloseDwindles(st: State, s: nat, hand: multiset<Ref>, busy: set<Ref>)
    requires Inv(st, hand, busy) && s in st.sessions && st.sessions[s].entry.None?
    requires !Stale(s, st.sessions, st.channels)
    ensures Dwindles(st, SessionClose(st, s))
  {
    if st.sessions[s].active {
      var x := st.sessions[s];
      var st1 := Deactivate(st, s);
      DeactivateDwindles(st, s);
      var st2 := CloseSlots(st1, x.channels);
      CloseSlotsDwindles(st1, x.channels);
      DwindlesOn(st, st1, st2);
      var st3 := CloseSlot(st2, x.system);
      CloseSlotDwindles(st2, x.system);
      DwindlesOn(st, st2, st3);
      CloseChannelsKeeps(st, s, hand, busy);
      var st4 := CloseParts(st3, s);
      ClosePartsDwindles(st3, s);
      DwindlesOn(st, st3, st4);
      UnrefSessionDwindles(st4, s);
      DwindlesOn(st, st4, UnrefSession(st4, s));
    }
  }

  lemma NodePopped(st: State, k: nat, hand: multiset<Ref>, busy: set<Ref>)
    requires Inv(st, hand, busy) && k in st.sockets && st.sockets[k].sessions != []
    requires SessionRef(st.sockets[k].sessions[0].session) !in busy
    ensures
      var s, socket := st.sockets[k].sessions[0].session, st.sockets[k];
      && s in st.sessions && st.sessions[s].active
      && Inv(SetSession(SetSocket(st, k, socket.(sessions := socket.sessions[1..])), s, st.sessions[s].(entry := None)),
             hand, busy + {SessionRef(s)})
  {
    var nodes := st.sockets[k].sessions;
    var s, x := nodes[0].session, st.sockets[k].(sessions := nodes[1..]);
    assert Holds(Lists, st, hand, busy) && Holds(Names, st, hand, busy) && Holds(Activity, st, hand, busy);
    assert ListSound(k, st.sockets, st.sessions, busy);
    assert nodes == [nodes[0]] + nodes[1..];
    assert IsListed(s, st.sockets, st.sessions, busy);
    assert SessionFresh(st.sessions[s], st.next);
    var y, busy' := st.sessions[s].(entry := None), busy + {SessionRef(s)};
    forall c | c in st.channels && st.channels[c].session == s
      ensures ChannelActive(c, st.sessions, st.channels, st.rtc, busy')
    {
      assert ChannelActive(c, st.sessions, st.channels, st.rtc, busy);
    }
    ListChanges(st.sockets, st.sessions, k, x, s, y, busy, busy');
    EntryKeeps(st, SetSession(SetSocket(st, k, x), s, y), k, s, hand, busy, busy');
  }

  /** The first session of the list, once its node was popped. */
  function FirstPopped(st: State, k: nat): State
    requires k in st.sockets && st.sockets[k].sessions != [] && st.sockets[k].sessions[0].session in st.sessions
  {
    var s, socket := st.sockets[k].sessions[0].session, st.sockets[k];
    SetSession(SetSocket(st, k, socket.(sessions := socket.sessions[1..])), s, st.sessions[s].(entry := None))
  }

  lemma PopAndCloseKeeps(st: State, k: nat, hand: multiset<Ref>, busy: set<Ref>)
    requires Inv(st, hand, busy) && k in st.sockets && st.sockets[k].sessions != [] && SocketRef(k) in hand
    requires SessionRef(st.sockets[k].sessions[0].session) !in busy
    requires !Stale(st.sockets[k].sessions[0].session, st.sessions, st.channels)
    ensures
      var st' := PopAndClose(st, k, st.sockets[k].sessions[0]);
      && Inv(st', hand, busy) && k in st'.sockets
      && st'.sockets[k] == st.sockets[k].(ref := st'.sockets[k].ref, sessions := st.sockets[k].sessions[1..])
      && Elsewhere(st, st', st.sockets[k].sessions[0].session)
  {
    var s := st.sockets[k].sessions[0].session;
    var busy' := busy + {SessionRef(s)};
    NodePopped(st, k, hand, busy);
    PopElsewhere(st, k);
    var st1 := FirstPopped(st, k);
    SessionCloseKeeps(st1, s, hand, busy');
    UnlistedCloseDwindles(st1, s, hand, busy');
    assert busy' - {SessionRef(s)} == busy;
    SocketStays(SessionClose(st1, s), k, hand, busy);
    ElsewhereOn(st, st1, SessionClose(st1, s), s);
  }

  lemma PopElsewhere(st: State, k: nat)
    requires k in st.sockets && st.sockets[k].sessions != [] && st.sockets[k].sessions[0].session in st.sessions
    ensures
      var s, st' := st.sockets[k].sessions[0].session, FirstPopped(st, k);
      && Elsewhere(st, st', s) && PopAndClose(st, k, st.sockets[k].sessions[0]) == SessionClose(st', s)
      && (Stale(s, st'.sessions, st'.channels) <==> Stale(s, st.sessions, st.channels))
      && k in st'.sockets && st'.sockets[k] == st.sockets[k].(sessions := st.sockets[k].sessions[1..])
  {
  }

  /** A socket with a reference in hand is live. */
  lemma SocketStays(st: State, k: nat, hand: multiset<Ref>, busy: set<Ref>)
    requires Inv(st, hand, busy) && SocketRef(k) in hand
    ensures k in st.sockets
  {
    assert Holds(Counts, st, hand, busy);
    assert Live(st.sockets, st.sessions, st.channels, SocketRef(k));
  }

  lemma PopAndCloseFaults(st: State, k: nat, hand: multiset<Ref>, busy: set<Ref>)
    requires Inv(st, hand, busy) && k in st.sockets && st.sockets[k].sessions != []
    requires SessionRef(st.sockets[k].sessions[0].session) !in busy
    requires Stale(st.sockets[k].sessions[0].session, st.sessions, st.channels)
    ensures PopAndClose(st, k, st.sockets[k].sessions[0]).fault
  {
    var s := st.sockets[k].sessions[0].session;
    NodePopped(st, k, hand, busy);
    SessionCloseFaults(FirstPopped(st, k), s, hand, busy + {SessionRef(s)});
  }

  /** Some session of these nodes is stale. */
  ghost predicate StaleAmong(nodes: seq<Node>, sessions: Sessions, channels: Channels) {
    exists node :: node in nodes && Stale(node.session, sessions, channels)
  }

  /** No node of this session. */
  ghost predicate NotAmong(nodes: seq<Node>, s: nat) {
    forall node :: node in nodes ==> node.session != s
  }

  /** A session is in a list once. */
  lemma LastOnce(st: State, k: nat, n: nat, hand: multiset<Ref>, busy: set<Ref>)
    requires Inv(st, hand, busy) && k in st.sockets && n < |st.sockets[k].sessions|
    ensures NotAmong(st.sockets[k].sessions[..n], st.sockets[k].sessions[n].session)
  {
    var list := st.sockets[k].sessions;
    assert Holds(Lists, st, hand, busy);
    assert ListSound(k, st.sockets, st.sessions, busy);
    forall node | node in list[..n] ensures node.session != list[n].session {
      var i :| 0 <= i < n && list[i] == node;
      assert list[i] != list[n];
    }
  }

  /** Closing the sessions one after the other empties the list: no close of a popped session
      reaches into it. */
  lemma {:induction false} CloseNodesKeeps(st: State, k: nat, nodes: seq<Node>, hand: multiset<Ref>, busy: set<Ref>)
    requires Inv(st, hand, busy) && k in st.sockets && SocketRef(k) in hand
    requires nodes <= st.sockets[k].sessions && forall s :: SessionRef(s) !in busy
    requires !StaleAmong(nodes, st.sessions, st.channels)
    ensures
      var st' := CloseNodes(st, k, nodes);
      && Inv(st', hand, busy) && k in st'.sockets
      && st'.sockets[k] == st.sockets[k].(ref := st'.sockets[k].ref, sessions := st.sockets[k].sessions[|nodes|..])
      && (forall z :: NotAmong(nodes, z) ==>
            (Stale(z, st'.sessions, st'.channels) <==> Stale(z, st.sessions, st.channels)))
  {
    var list := st.sockets[k].sessions;
    if nodes != [] {
      var n := |nodes| - 1;
      var st1, s := CloseNodes(st, k, nodes[..n]), nodes[n].session;
      CloseNodesKeeps(st, k, nodes[..n], hand, busy);
      assert list[n..][0] == nodes[n] && list[n..][1..] == list[|nodes|..] && list[..n] == nodes[..n];
      LastOnce(st, k, n, hand, busy);
      assert nodes[n] in nodes;
      PopAndCloseKeeps(st1, k, hand, busy);
      var st2 := CloseNodes(st, k, nodes);
      forall z | NotAmong(nodes, z)
        ensures Stale(z, st2.sessions, st2.channels) <==> Stale(z, st.sessions, st.channels)
      {
        assert NotAmong(nodes[..n], z);
        StaleElsewhere(st1, st2, s, z, hand, busy);
      }
    }
  }

  lemma StaleSplits(nodes: seq<Node>, sessions: Sessions, channels: Channels)
    requires StaleAmong(nodes, sessions, channels)
    ensures nodes != []
    ensures StaleAmong(nodes[..|nodes| - 1], sessions, channels)
            || Stale(nodes[|nodes| - 1].session, sessions, channels)
  {
    var node :| node in nodes && Stale(node.session, sessions, channels);
    if node != nodes[|nodes| - 1] { assert node in nodes[..|nodes| - 1]; }
  }

  /** The loop reaches the first stale session, and nothing later clears the fault. */
  lemma {:induction false} CloseNodesFaults(st: State, k: nat, nodes: seq<Node>, hand: multiset<Ref>, busy: set<Ref>)
    requires Inv(st, hand, busy) && k in st.sockets && SocketRef(k) in hand
    requires nodes <= st.sockets[k].sessions && forall s :: SessionRef(s) !in busy
    requires StaleAmong(nodes, st.sessions, st.channels)
    ensures CloseNodes(st, k, nodes).fault
  {
    StaleSplits(nodes, st.sessions, st.channels);
    var first, node := nodes[..|nodes| - 1], nodes[|nodes| - 1];
    var st1 := CloseNodes(st, k, first);
    assert CloseNodes(st, k, nodes) == PopAndClose(st1, k, node);
    if StaleAmong(first, st.sessions, st.channels) {
      CloseNodesFaults(st, k, first, hand, busy);
      PopSteady(st1, k, node, {});
    } else {
      assert first + [node] == nodes;
      FirstStaleFaults(st, k, first, node, hand, busy);
    }
  }

  lemma FirstStaleFaults(st: State, k: nat, nodes: seq<Node>, node: Node, hand: multiset<Ref>, busy: set<Ref>)
    requires Inv(st, hand, busy) && k in st.sockets && SocketRef(k) in hand
    requires nodes + [node] <= st.sockets[k].sessions && forall s :: SessionRef(s) !in busy
    requires !StaleAmong(nodes, st.sessions, st.channels) && Stale(node.session, st.sessions, st.channels)
    ensures PopAndClose(CloseNodes(st, k, nodes), k, node).fault
  {
    var list, n := st.sockets[k].sessions, |nodes|;
    assert (nodes + [node])[..n] == nodes && (nodes + [node])[n] == node;
    assert list[..n] == nodes && list[n..][0] == node;
    CloseNodesKeeps(st, k, nodes, hand, busy);
    LastOnce(st, k, n, hand, busy);
    PopAndCloseFaults(CloseNodes(st, k, nodes), k, hand, busy);
  }

  /** The reference of the active flag passes into the hand. */
  lemma SocketDeactivated(st: State, k: nat, hand: multiset<Ref>, busy: set<Ref>)
    requires Inv(st, hand, busy) && k in st.sockets && st.sockets[k].active
    ensures Inv(SetSocket(st, k, st.sockets[k].(active := false)), hand + multiset{SocketRef(k)},
                busy + {SocketRef(k)})
  {
    var x, hand', busy' := st.sockets[k].(active := false), hand + multiset{SocketRef(k)}, busy + {SocketRef(k)};
    var refs := QueueRefs(st.tasks, st.exec);
    Read(st, hand, busy);
    assert SocketCounted(k, st.sockets, st.sessions, st.rtc, refs + hand);
    SocketCounts(st.sockets, st.sessions, st.channels, st.rtc, k, x, refs + hand, refs + hand');
    SocketMapped(st.sockets, st.socketMap, st.tasks, k, x);
    SocketFlags(st.sockets, st.sessions, k, x, busy, busy');
    SameActiveBusy(st.sessions, st.channels, st.rtc, busy, busy');
    SameLatentBusy(st.sessions, st.timers, st.ledger.late, busy, busy');
    SameBooks(st.sockets, st.sessions, st.channels, st.sockets[k := x], st.sessions, st.channels, st.rtc, st.rtc,
              st.ledger, st.next, st.next);
    Hold(SetSocket(st, k, x), hand', busy');
  }

  lemma SameLatentBusy(sessions: Sessions, timers: Timers, late: map<nat, nat>, busy: set<Ref>, busy': set<Ref>)
    requires Latent(sessions, timers, late, busy)
    requires forall s :: SessionRef(s) in busy <==> SessionRef(s) in busy'
    ensures Latent(sessions, timers, late, busy')
  {
    forall t | t in timers ensures PingLate(t, sessions, timers, late, busy') {
      assert PingLate(t, sessions, timers, late, busy);
    }
  }

  lemma SameActiveBusy(sessions: Sessions, channels: Channels, rtc: RtcMap, busy: set<Ref>, busy': set<Ref>)
    requires Active(sessions, channels, rtc, busy)
    requires forall s :: SessionRef(s) in busy <==> SessionRef(s) in busy'
    ensures Active(sessions, channels, rtc, busy')
  {
    forall s | s in sessions ensures PartsActive(s, sessions, busy') {
      assert PartsActive(s, sessions, busy);
    }
    forall c | c in channels ensures ChannelActive(c, sessions, channels, rtc, busy') {
      assert ChannelActive(c, sessions, channels, rtc, busy);
    }
  }

  lemma SocketFlags(sockets: Sockets, sessions: Sessions, k: nat, x: Socket, busy: set<Ref>, busy': set<Ref>)
    requires Listed(sockets, sessions, busy) && k in sockets && x.sessions == sockets[k].sessions
    requires SocketRef(k) in busy' || (x.wssActive == x.active && (!x.active ==> x.sessions == []))
    requires BusyBut(busy, busy', SocketRef(k))
    ensures Listed(sockets[k := x], sessions, busy')
  {
    var sockets' := sockets[k := x];
    forall j | j in sockets' ensures ListSound(j, sockets', sessions, busy') {
      assert ListSound(j, sockets, sessions, busy);
    }
    forall s | s in sessions ensures IsListed(s, sockets', sessions, busy') {
      assert IsListed(s, sockets, sessions, busy);
    }
  }

  lemma WssDeactivated(st: State, k: nat, hand: multiset<Ref>, busy: set<Ref>)
    requires Inv(st, hand, busy) && k in st.sockets && !st.sockets[k].active && st.sockets[k].sessions == []
    ensures Inv(SetSocket(st, k, st.sockets[k].(wssActive := false)), hand, busy - {SocketRef(k)})
  {
    var x, busy' := st.sockets[k].(wssActive := false), busy - {SocketRef(k)};
    var refs := QueueRefs(st.tasks, st.exec);
    Read(st, hand, busy);
    assert SocketCounted(k, st.sockets, st.sessions, st.rtc, refs + hand);
    SocketCounts(st.sockets, st.sessions, st.channels, st.rtc, k, x, refs + hand, refs + hand);
    SocketMapped(st.sockets, st.socketMap, st.tasks, k, x);
    SocketFlags(st.sockets, st.sessions, k, x, busy, busy');
    SameActiveBusy(st.sessions, st.channels, st.rtc, busy, busy');
    SameLatentBusy(st.sessions, st.timers, st.ledger.late, busy, busy');
    SameBooks(st.sockets, st.sessions, st.channels, st.sockets[k := x], st.sessions, st.channels, st.rtc, st.rtc,
              st.ledger, st.next, st.next);
    Hold(SetSocket(st, k, x), hand, busy');
  }

  /** Closing an active socket closes a stale session. */
  predicate StaleOn(st: State, k: nat) {
    exists s :: s in st.sessions && st.sessions[s].socket == k && Stale(s, st.sessions, st.channels)
  }

  /** The sessions a socket closes are its active ones. */
  lemma StaleListed(st: State, k: nat, hand: multiset<Ref>)
    requires Inv(st, hand, {}) && k in st.sockets
    ensures StaleOn(st, k) <==> StaleAmong(st.sockets[k].sessions, st.sessions, st.channels)
    ensures StaleOn(st, k) ==> st.sockets[k].active
  {
    var none: set<Ref> := {};
    assert Holds(Lists, st, hand, none);
    assert ListSound(k, st.sockets, st.sessions, none);
    if s :| s in st.sessions && st.sessions[s].socket == k && Stale(s, st.sessions, st.channels) {
      assert IsListed(s, st.sockets, st.sessions, none);
      assert Node(st.sessions[s].entry.value, s) in st.sockets[k].sessions;
    }
  }

  lemma SocketCloseKeeps(st: State, k: nat, hand: multiset<Ref>)
    requires Inv(st, hand, {}) && k in st.sockets && !StaleOn(st, k)
    ensures Inv(SocketClose(st, k), hand, {})
  {
    if st.sockets[k].active {
      var hand', nodes := hand + multiset{SocketRef(k)}, st.sockets[k].sessions;
      var none: set<Ref> := {};
      StaleListed(st, k, hand);
      SocketDeactivated(st, k, hand, none);
      assert none + {SocketRef(k)} == {SocketRef(k)} && {SocketRef(k)} - {SocketRef(k)} == none;
      var st1 := SetSocket(st, k, st.sockets[k].(active := false));
      CloseNodesKeeps(st1, k, nodes, hand', {SocketRef(k)});
      var st2 := CloseNodes(st1, k, nodes);
      WssDeactivated(st2, k, hand', {SocketRef(k)});
      UnrefSocketKeeps(SetSocket(st2, k, st2.sockets[k].(wssActive := false)), k, hand', {});
      assert hand' - multiset{SocketRef(k)} == hand;
    }
  }

  lemma SocketCloseFaults(st: State, k: nat, hand: multiset<Ref>)
    requires Inv(st, hand, {}) && k in st.sockets && StaleOn(st, k)
    ensures SocketClose(st, k).fault
  {
    var hand', nodes := hand + multiset{SocketRef(k)}, st.sockets[k].sessions;
    var none: set<Ref> := {};
    StaleListed(st, k, hand);
    SocketDeactivated(st, k, hand, none);
    assert none + {SocketRef(k)} == {SocketRef(k)};
    var st1 := SetSocket(st, k, st.sockets[k].(active := false));
    CloseNodesFaults(st1, k, nodes, hand', {SocketRef(k)});
    var st2 := CloseNodes(st1, k, nodes);
    if k in st2.sockets { SocketShutSteady(st2, k, {}); }
  }
}
