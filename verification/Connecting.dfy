/** Handing the native session over opens the receive gates; messages then pass through them. */
module Connecting {
  import opened Wrappers
  import opened Model
  import opened Lifecycle
  import opened Invariants
  import opened Counting
  import opened Updates
  import opened Unref
  import opened Dwindling
  import opened Closing
  import opened Opening
  import opened Taking

  // ----- The native session arrives ----------------------------------------------------

  ghost predicate Arrives(st: State, st': State, s: nat, n: nat)
    requires s in st.sessions
  {
    && st.tasks != [] && st.tasks[0] == Task.Created(s, Some(n))
    && st' == st.(tasks := st.tasks[1..], owners := st.owners[n := s],
                  sessions := st.sessions[s := st.sessions[s].(native := Some(n))])
  }

  /** A session that waits for its native session has its handshake complete. */
  lemma StillWaiting(st: State, s: nat, created: Option<nat>)
    requires Invariant(st) && st.tasks != [] && st.tasks[0] == Task.Created(s, created)
    ensures s in st.sessions
    ensures
      var x, rest := st.sessions[s], QueueRefs(st.tasks[1..], st.exec)[SessionRef(s)];
      && x.native.None? && x.openings == 1 && x.allOpened && x.system.Some? && rest == 0
      && QueueRefs(st.tasks, st.exec)[SessionRef(s)] == 1
  {
    Read(st, multiset{}, {});
    Popped(TaskRef, st.tasks);
    assert QueueRefs(st.tasks, st.exec) + multiset{} == QueueRefs(st.tasks[1..], st.exec) + multiset{SessionRef(s)};
    assert SessionRef(s) in QueueRefs(st.tasks, st.exec) + multiset{};
    assert Live(st.sockets, st.sessions, st.channels, SessionRef(s));
    assert Progresses(s, st.sessions, QueueRefs(st.tasks, st.exec));
  }

  lemma ArrivalLayers(st: State, s: nat, n: nat)
    requires Invariant(st) && s in st.sessions && st.tasks != [] && st.tasks[0] == Task.Created(s, Some(n))
    ensures
      var tasks', sessions' := st.tasks[1..], st.sessions[s := st.sessions[s].(native := Some(n))];
      && Counted(st.sockets, sessions', st.channels, st.rtc, QueueRefs(tasks', st.exec) + multiset{SessionRef(s)})
      && Slotted(sessions', st.channels, st.rtc) && Active(sessions', st.channels, st.rtc, {})
      && Listed(st.sockets, sessions', {}) && Timed(sessions', st.timers)
  {
    var y, out := st.sessions[s].(native := Some(n)), QueueRefs(st.tasks[1..], st.exec) + multiset{SessionRef(s)};
    Read(st, multiset{}, {});
    HeadCounted(st);
    SessionFacts(st, s, multiset{}, {});
    assert SessionCounted(s, st.sockets, st.sessions, st.channels, st.rtc, out);
    SessionCounts(st.sockets, st.sessions, st.channels, st.rtc, s, y, out, out);
    SessionSlots(st.sessions, st.channels, st.rtc, s, y);
    SessionListed(st.sockets, st.sessions, s, y, {}, {});
    SameTimers(st.sessions, st.timers, s, y);
    forall c | c in st.channels && st.channels[c].session == s
      ensures ChannelActive(c, st.sessions[s := y], st.channels, st.rtc, {})
    {
      assert ChannelActive(c, st.sessions, st.channels, st.rtc, {});
    }
    SessionActivity(st.sessions, st.channels, st.rtc, s, y, {}, {});
  }

  lemma ArrivalRecorded(st: State, s: nat, n: nat)
    requires Invariant(st) && s in st.sessions && st.tasks != [] && st.tasks[0] == Task.Created(s, Some(n))
    ensures
      var tasks', sessions' := st.tasks[1..], st.sessions[s := st.sessions[s].(native := Some(n))];
      && Conserved(sessions', tasks', st.exec, st.made, st.destroyed, st.lost)
      && Progressing(sessions', QueueRefs(tasks', st.exec))
      && OpensOnce(sessions', st.channels, tasks', st.openPosted)
      && Fresh(st.sockets, sessions', st.channels, st.socketMap, tasks', st.timers, st.openPosted, st.made, st.next)
      && Mapped(st.sockets, st.socketMap, tasks') && ClosedLast(tasks', st.rtc)
  {
    var y, tasks' := st.sessions[s].(native := Some(n)), st.tasks[1..];
    Read(st, multiset{}, {});
    StillWaiting(st, s, Some(n));
    SessionFacts(st, s, multiset{}, {});
    Popped(TransitOf, st.tasks);
    SessionConserved(st.sessions, st.tasks, tasks', st.exec, st.exec, st.made, st.destroyed, st.lost, st.lost, s, y);
    HeadProgress(st.sessions, st.tasks, st.exec);
    SessionProgresses(st.sessions, QueueRefs(tasks', st.exec), QueueRefs(tasks', st.exec), s, y);
    HeadOpens(st.sessions, st.channels, st.tasks, st.openPosted);
    SessionOpens(st.sessions, st.channels, tasks', st.openPosted, s, y);
    HeadFresh(st);
    HeadMaps(st.sockets, st.socketMap, st.tasks);
    HeadEvents(st.tasks, st.rtc);
    SessionNames(st.(tasks := tasks'), st.(tasks := tasks', sessions := st.sessions[s := y]), s);
  }

  /** The native session gets its owner. */
  lemma ArrivalOwned(st: State, s: nat, n: nat)
    requires Invariant(st) && s in st.sessions && st.tasks != [] && st.tasks[0] == Task.Created(s, Some(n))
    ensures Owned(st.sessions[s := st.sessions[s].(native := Some(n))], st.tasks[1..], st.owners[n := s], st.made)
  {
    var sessions', owners' := st.sessions[s := st.sessions[s].(native := Some(n))], st.owners[n := s];
    Read(st, multiset{}, {});
    Popped(TransitOf, st.tasks);
    assert OnePlace(n, st.sessions, st.tasks, st.exec, st.made, st.destroyed, st.lost);
    forall m: nat ensures HandedOver(m, st.tasks[1..], owners', st.made) {
      assert HandedOver(m, st.tasks, st.owners, st.made);
    }
    forall i: nat | i < |st.tasks[1..]| ensures AddressedAt(i, st.tasks[1..], owners') {
      assert AddressedAt(i + 1, st.tasks, st.owners);
      HeadAddressed(st.tasks, st.owners, owners', i);
    }
    forall z | z in sessions' ensures OwnsNative(z, sessions', owners') {
      assert OwnsNative(z, st.sessions, st.owners);
      assert HandedOver(n, st.tasks, st.owners, st.made);
    }
  }

  lemma ArrivesKeeps(st: State, st': State, s: nat, n: nat)
    requires Invariant(st) && s in st.sessions && Arrives(st, st', s, n)
    ensures Inv(st', multiset{SessionRef(s)}, {})
  {
    Read(st, multiset{}, {});
    ArrivalLayers(st, s, n);
    ArrivalRecorded(st, s, n);
    ArrivalOwned(st, s, n);
    SameLatent(st.sessions, st.timers, st.ledger.late, s, st'.sessions[s], {}, {});
    SameBooks(st.sockets, st.sessions, st.channels, st.sockets, st'.sessions, st.channels, st.rtc, st.rtc, st.ledger,
              st.next, st.next);
    Hold(st', multiset{SessionRef(s)}, {});
  }

  // ----- The receive gates open --------------------------------------------------------

  /** Only flags of channels change. */
  ghost predicate OnlyFlags(channels: Channels, channels': Channels) {
    && channels'.Keys == channels.Keys
    && forall c {:trigger channels'[c]} :: c in channels ==>
         channels'[c] == channels[c].(dcReceive := channels'[c].dcReceive, incoming := channels'[c].incoming)
  }

  lemma FlagKeeps(st: State, c: nat, receive: bool, incoming: bool, hand: multiset<Ref>, busy: set<Ref>)
    requires Inv(st, hand, busy) && c in st.channels
    requires receive && !st.channels[c].dcReceive ==>
               st.channels[c].session in st.sessions && st.sessions[st.channels[c].session].native.Some?
    requires st.channels[c].index == SYSTEM_INDEX ==> !incoming
    ensures Inv(SetChannel(st, c, st.channels[c].(dcReceive := receive, incoming := incoming)), hand, busy)
  {
    ChannelFacts(st, c, hand, busy);
    assert Holds(Natives, st, hand, busy) && Holds(Commands, st, hand, busy);
    var y := st.channels[c].(dcReceive := receive, incoming := incoming);
    ChannelKeeps(st, SetChannel(st, c, y), c, hand, hand, busy);
  }

  lemma EnableReceivingKeeps(st: State, c: nat, hand: multiset<Ref>, busy: set<Ref>)
    requires Inv(st, hand, busy) && c in st.channels
    requires st.channels[c].session in st.sessions && st.sessions[st.channels[c].session].native.Some?
    ensures
      var st' := EnableReceiving(st, Some(c));
      Inv(st', hand, busy) && st'.(channels := st.channels) == st && OnlyFlags(st.channels, st'.channels)
  {
    var x := st.channels[c];
    ChannelFacts(st, c, hand, busy);
    FlagKeeps(st, c, true, x.incoming, hand, busy);
    assert x.(dcReceive := true, incoming := x.incoming) == x.(dcReceive := true);
  }

  lemma {:induction false} EnableSlotsKeeps(st: State, s: nat, j: nat, hand: multiset<Ref>, busy: set<Ref>)
    requires Inv(st, hand, busy) && s in st.sessions && st.sessions[s].native.Some? && j <= |st.sessions[s].channels|
    requires forall i :: 0 <= i < j ==> st.sessions[s].channels[i].Some?
    ensures
      var st' := EnableSlots(st, st.sessions[s].channels[..j]);
      Inv(st', hand, busy) && st'.(channels := st.channels) == st && OnlyFlags(st.channels, st'.channels)
  {
    var slots := st.sessions[s].channels;
    if j > 0 {
      EnableSlotsKeeps(st, s, j - 1, hand, busy);
      var st1 := EnableSlots(st, slots[..j - 1]);
      assert slots[..j][..j - 1] == slots[..j - 1];
      SlotFacts(st1, s, j - 1, hand, busy);
      EnableReceivingKeeps(st1, slots[j - 1].value, hand, busy);
    }
  }

  /** The gates can be opened when no slot is empty and the system channel is there. */
  ghost predicate AllThere(x: Session, channels: Channels) {
    && (forall i :: 0 <= i < |x.channels| ==> x.channels[i].Some?)
    && x.system.Some? && x.system.value in channels
  }

  lemma OnConnectedKeeps(st: State, s: nat, hand: multiset<Ref>, busy: set<Ref>)
    requires Inv(st, hand, busy) && s in st.sessions && st.sessions[s].native.Some?
    requires AllThere(st.sessions[s], st.channels)
    ensures Inv(OnConnected(st, s), hand, busy)
  {
    var x := st.sessions[s];
    EnableSlotsKeeps(st, s, |x.channels|, hand, busy);
    assert x.channels[..|x.channels|] == x.channels;
    var st1 := EnableSlots(st, x.channels);
    assert Holds(Slots, st1, hand, busy);
    assert SlotsFilled(s, st1.sessions, st1.channels, st1.rtc);
    EnableReceivingKeeps(st1, x.system.value, hand, busy);
  }

  /** An empty slot is followed as if it held a channel. */
  lemma {:induction false} EnableSlotsFaults(st: State, slots: seq<Option<nat>>)
    requires st.fault || exists i :: 0 <= i < |slots| && slots[i].None?
    ensures EnableSlots(st, slots).fault
  {
    if slots != [] {
      var n := |slots| - 1;
      if st.fault || slots[n].Some? { EnableSlotsFaults(st, slots[..n]); }
    }
  }

  lemma EnableOnly(st: State, slot: Option<nat>)
    ensures
      var st' := EnableReceiving(st, slot);
      st' == st.(channels := st'.channels, fault := st'.fault) && (st.fault ==> st'.fault)
  {
  }

  lemma {:induction false} EnableSlotsOnly(st: State, slots: seq<Option<nat>>)
    ensures
      var st' := EnableSlots(st, slots);
      st' == st.(channels := st'.channels, fault := st'.fault) && (st.fault ==> st'.fault)
  {
    if slots != [] {
      var n := |slots| - 1;
      EnableSlotsOnly(st, slots[..n]);
      EnableOnly(EnableSlots(st, slots[..n]), slots[n]);
    }
  }

  lemma {:induction false} EnableSlotsChannels(st: State, slots: seq<Option<nat>>)
    ensures EnableSlots(st, slots).channels.Keys == st.channels.Keys
  {
    if slots != [] { EnableSlotsChannels(st, slots[..|slots| - 1]); }
  }

  lemma OnConnectedFaults(st: State, s: nat)
    requires s in st.sessions && !AllThere(st.sessions[s], st.channels)
    ensures OnConnected(st, s).fault
  {
    var x := st.sessions[s];
    EnableSlotsChannels(st, x.channels);
    if exists i :: 0 <= i < |x.channels| && x.channels[i].None? { EnableSlotsFaults(st, x.channels); }
  }

  lemma CreatedKeeps(st: State, s: nat, n: nat, o: Outcome)
    requires Invariant(st) && st.tasks != [] && st.tasks[0] == Task.Created(s, Some(n))
    ensures s in st.sessions
    ensures if AllThere(st.sessions[s], st.channels) then Invariant(Loop(st, o)) else Loop(st, o).fault
  {
    StillWaiting(st, s, Some(n));
    var st1 := st.(tasks := st.tasks[1..], owners := st.owners[n := s],
                   sessions := st.sessions[s := st.sessions[s].(native := Some(n))]);
    assert Loop(st, o) == UnrefSession(OnConnected(st1, s), s);
    if AllThere(st.sessions[s], st.channels) {
      var none: set<Ref> := {};
      ArrivesKeeps(st, st1, s, n);
      OnConnectedKeeps(st1, s, multiset{SessionRef(s)}, none);
      UnrefSessionKeeps(OnConnected(st1, s), s, multiset{SessionRef(s)}, none);
      assert multiset{SessionRef(s)} - multiset{SessionRef(s)} == multiset{};
    } else {
      OnConnectedFaults(st1, s);
      UnrefSessionDwindles(OnConnected(st1, s), s);
    }
  }

  // ----- Data channels and messages ----------------------------------------------------

  lemma DataChannelArrivedKeeps(st: State, s: nat, index: nat, hand: multiset<Ref>, busy: set<Ref>)
    requires Inv(st, hand, busy) && s in st.sessions
    ensures Inv(DataChannelArrived(st, s, index), hand, busy)
  {
    var slots := st.sessions[s].channels;
    if index < |slots| && slots[index].Some? {
      var c := slots[index].value;
      SlotFacts(st, s, index, hand, busy);
      FlagKeeps(st, c, st.channels[c].dcReceive, true, hand, busy);
      var x := st.channels[c];
      assert x.(dcReceive := x.dcReceive, incoming := true) == x.(incoming := true);
    }
  }

  /** A native session that a session holds is neither destroyed nor about to be. */
  lemma HeldUndestroyed(st: State, s: nat, n: nat, hand: multiset<Ref>, busy: set<Ref>)
    requires Inv(st, hand, busy) && s in st.sessions && st.sessions[s].native == Some(n)
    ensures n !in st.destroyed && Destroy(n) !in st.exec
  {
    assert Holds(Natives, st, hand, busy);
    assert OnePlace(n, st.sessions, st.tasks, st.exec, st.made, st.destroyed, st.lost);
    assert s in HoldersOf(st.sessions, n);
    if Destroy(n) in st.exec { Carried(RequestOf, st.exec, Destroy(n)); }
  }

  lemma ReceiveQueued(st: State, c: nat, n: nat)
    requires Conserved(st.sessions, st.tasks, st.exec, st.made, st.destroyed, st.lost)
    requires Usable(st.exec, st.destroyed) && n !in st.destroyed && Destroy(n) !in st.exec
    ensures
      var exec' := st.exec + [Receive(c, Some(n))];
      && Conserved(st.sessions, st.tasks, exec', st.made, st.destroyed, st.lost) && Usable(exec', st.destroyed)
      && Gather(CommandRef, exec') == Gather(CommandRef, st.exec) + multiset{ChannelRef(c)}
  {
    var command := Receive(c, Some(n));
    Pushed(CommandRef, st.exec, command);
    Pushed(RequestOf, st.exec, command);
    assert Requested(st.exec + [command]) == Requested(st.exec);
    UsablePushed(st.exec, st.destroyed, command);
    NativesMove(st.sessions, st.tasks, st.tasks, st.exec, st.exec + [command], st.made, st.destroyed, st.destroyed,
                st.lost);
  }

  lemma ReceiveSubmitted(st: State, c: nat, n: nat, hand: multiset<Ref>, busy: set<Ref>)
    requires Inv(st, hand, busy) && c in st.channels && n !in st.destroyed && Destroy(n) !in st.exec
    ensures Inv(st.(channels := st.channels[c := st.channels[c].(ref := st.channels[c].ref + 1)],
                    exec := st.exec + [Receive(c, Some(n))]), hand, busy)
  {
    ChannelFacts(st, c, hand, busy);
    assert Holds(Natives, st, hand, busy) && Holds(Commands, st, hand, busy);
    ReceiveQueued(st, c, n);
    ChannelKeeps(st, st.(channels := st.channels[c := st.channels[c].(ref := st.channels[c].ref + 1)],
                         exec := st.exec + [Receive(c, Some(n))]), c, hand, hand, busy);
  }

  lemma DcMessageKeeps(st: State, c: nat, hand: multiset<Ref>, busy: set<Ref>)
    requires Inv(st, hand, busy) && c in st.channels && Dc(c) in st.rtc
    ensures Inv(DcMessage(st, c), hand, busy)
  {
    var x := st.channels[c];
    ChannelFacts(st, c, hand, busy);
    if x.incoming && x.dcActive && x.dcReceive && ExecutorUp(st) {
      var n := st.sessions[x.session].native.value;
      HeldUndestroyed(st, x.session, n, hand, busy);
      ReceiveSubmitted(st, c, n, hand, busy);
      assert DcMessage(st, c) == ChannelReceive(st, c);
    }
  }
}
