/** Taking the first task off the queue: what it carried passes into the hand. */
module Taking {
  import opened Wrappers
  import opened Model
  import opened Lifecycle
  import opened Invariants
  import opened Counting
  import opened Updates
  import opened Unref
  import opened Opening

  /** Taking the closed event of an rtc object takes the object out of the outside world. */
  function RtcAfter(t: Task, rtc: RtcMap): RtcMap {
    if t.Event? && t.what.Closed? then rtc - {t.source} else rtc
  }

  function HandOf(t: Task): multiset<Ref> {
    if t.Event? && t.what.Closed? then multiset{RtcRef(t.source)} else TaskRef(t)
  }

  lemma RtcClosed(sockets: Sockets, sessions: Sessions, channels: Channels, rtc: RtcMap, x: Rtc, out: multiset<Ref>)
    requires Counted(sockets, sessions, channels, rtc, out) && x in rtc
    ensures Counted(sockets, sessions, channels, rtc - {x}, out + multiset{RtcRef(x)})
  {
    var rtc', out' := rtc - {x}, out + multiset{RtcRef(x)};
    forall k | k in sockets ensures SocketCounted(k, sockets, sessions, rtc', out') {
      assert SocketCounted(k, sockets, sessions, rtc, out);
    }
    forall s | s in sessions ensures SessionCounted(s, sockets, sessions, channels, rtc', out') {
      assert SessionCounted(s, sockets, sessions, channels, rtc, out);
    }
    forall c | c in channels ensures ChannelCounted(c, sessions, channels, rtc', out') {
      assert ChannelCounted(c, sessions, channels, rtc, out);
    }
    assert Live(sockets, sessions, channels, RtcRef(x));
    forall r | r in out' ensures Live(sockets, sessions, channels, r) {
      if r != RtcRef(x) { assert r in out; }
    }
  }

  lemma HeadCounted(st: State)
    requires Invariant(st) && st.tasks != []
    requires st.tasks[0].Event? ==> st.tasks[0].source in st.rtc
    ensures Counted(st.sockets, st.sessions, st.channels, RtcAfter(st.tasks[0], st.rtc),
                    QueueRefs(st.tasks[1..], st.exec) + HandOf(st.tasks[0]))
  {
    var t, rest := st.tasks[0], QueueRefs(st.tasks[1..], st.exec);
    Popped(TaskRef, st.tasks);
    assert Holds(Counts, st, multiset{}, {});
    assert QueueRefs(st.tasks, st.exec) + multiset{} == rest + TaskRef(t);
    if t.Event? && t.what.Closed? {
      RtcClosed(st.sockets, st.sessions, st.channels, st.rtc, t.source, rest + TaskRef(t));
      assert rest + TaskRef(t) + multiset{RtcRef(t.source)} == rest + HandOf(t);
    }
  }

  lemma HeadEvents(tasks: seq<Task>, rtc: RtcMap)
    requires ClosedLast(tasks, rtc) && tasks != []
    ensures ClosedLast(tasks[1..], RtcAfter(tasks[0], rtc))
    ensures tasks[0].Event? ==> tasks[0].source in rtc
  {
    var t, rest, rtc' := tasks[0], tasks[1..], RtcAfter(tasks[0], rtc);
    assert NoneAfterClosed(0, tasks, rtc);
    forall i: nat | i < |rest| ensures NoneAfterClosed(i, rest, rtc') {
      assert NoneAfterClosed(i + 1, tasks, rtc);
      assert tasks[..i + 1] == [t] + rest[..i];
    }
    forall x ensures ClosedPosted(x, rest, rtc') {
      assert ClosedPosted(x, tasks, rtc);
      assert tasks == [t] + rest;
    }
  }

  lemma HeadOpens(sessions: Sessions, channels: Channels, tasks: seq<Task>, openPosted: set<nat>)
    requires OpensOnce(sessions, channels, tasks, openPosted) && tasks != []
    ensures OpensOnce(sessions, channels, tasks[1..], openPosted)
    ensures tasks[0].Event? && tasks[0].source.Dc? && tasks[0].what.Open? ==>
              && tasks[0] !in tasks[1..] && tasks[0].source.c in openPosted
              && forall s :: s in sessions ==> tasks[0].source.c !in sessions[s].openedBy
  {
    var rest := tasks[1..];
    assert OpensFirst(0, sessions, tasks, openPosted);
    forall i: nat | i < |rest|
      ensures OpensFirst(i, sessions, rest, openPosted)
      ensures tasks[0].Event? && tasks[0].source.Dc? && tasks[0].what.Open? ==> rest[i] != tasks[0]
    {
      assert OpensFirst(i + 1, sessions, tasks, openPosted);
      assert tasks[..i + 1] == [tasks[0]] + rest[..i];
    }
  }

  lemma HeadMaps(sockets: Sockets, socketMap: map<nat, nat>, tasks: seq<Task>)
    requires Mapped(sockets, socketMap, tasks) && tasks != []
    ensures Mapped(sockets, socketMap, tasks[1..])
    ensures tasks[0].Listening? ==>
              && tasks[0].native !in socketMap && tasks[0].modes <= SYSTEM_INDEX
              && forall m :: Listening(tasks[0].native, m) !in tasks[1..]
  {
    var rest := tasks[1..];
    assert ListensFirst(0, socketMap, tasks);
    forall i: nat | i < |rest|
      ensures ListensFirst(i, socketMap, rest)
      ensures tasks[0].Listening? && rest[i].Listening? ==> rest[i].native != tasks[0].native
    {
      assert ListensFirst(i + 1, socketMap, tasks);
      assert tasks[..i + 1] == [tasks[0]] + rest[..i];
      if tasks[0].Listening? && rest[i].Listening? {
        assert tasks[0] == Listening(tasks[0].native, tasks[0].modes);
      }
    }
  }

  lemma HeadProgress(sessions: Sessions, tasks: seq<Task>, exec: seq<Command>)
    requires Progressing(sessions, QueueRefs(tasks, exec)) && tasks != []
    ensures Progressing(sessions, QueueRefs(tasks[1..], exec))
  {
    Popped(TaskRef, tasks);
    forall s | s in sessions ensures Progresses(s, sessions, QueueRefs(tasks[1..], exec)) {
      assert Progresses(s, sessions, QueueRefs(tasks, exec));
    }
  }

  lemma HeadNatives(st: State)
    requires Conserved(st.sessions, st.tasks, st.exec, st.made, st.destroyed, st.lost) && st.tasks != []
    requires TransitOf(st.tasks[0]) == multiset{}
    ensures Conserved(st.sessions, st.tasks[1..], st.exec, st.made, st.destroyed, st.lost)
  {
    Popped(TransitOf, st.tasks);
    NativesMove(st.sessions, st.tasks, st.tasks[1..], st.exec, st.exec, st.made, st.destroyed, st.destroyed, st.lost);
  }

  lemma HeadFresh(st: State)
    requires Fresh(st.sockets, st.sessions, st.channels, st.socketMap, st.tasks, st.timers, st.openPosted, st.made,
                   st.next)
    requires st.tasks != []
    ensures Fresh(st.sockets, st.sessions, st.channels, st.socketMap, st.tasks[1..], st.timers, st.openPosted, st.made,
                  st.next)
    ensures st.tasks[0].Listening? ==> st.tasks[0].native < st.next
  {
    if st.tasks[0].Listening? { assert st.tasks[0] == Listening(st.tasks[0].native, st.tasks[0].modes); }
  }

  lemma HeadAddressed(tasks: seq<Task>, owners: map<nat, nat>, owners': map<nat, nat>, i: nat)
    requires i + 1 < |tasks| && AddressedAt(i + 1, tasks, owners) && owners.Keys <= owners'.Keys
    requires forall n :: n in TransitOf(tasks[0]) ==> n in owners'
    ensures AddressedAt(i, tasks[1..], owners')
  {
    assert tasks[..i + 1][1..] == tasks[1..][..i];
    Popped(TransitOf, tasks[..i + 1]);
  }

  lemma HeadOwned(sessions: Sessions, tasks: seq<Task>, owners: map<nat, nat>, made: set<nat>)
    requires Owned(sessions, tasks, owners, made) && tasks != [] && TransitOf(tasks[0]) == multiset{}
    ensures Owned(sessions, tasks[1..], owners, made)
  {
    Popped(TransitOf, tasks);
    forall n: nat ensures HandedOver(n, tasks[1..], owners, made) {
      assert HandedOver(n, tasks, owners, made);
    }
    forall i: nat | i < |tasks[1..]| ensures AddressedAt(i, tasks[1..], owners) {
      assert AddressedAt(i + 1, tasks, owners);
      HeadAddressed(tasks, owners, owners, i);
    }
  }

  /** The layers that a plain task leaves as they are. */
  lemma HeadTaken(st: State)
    requires Invariant(st) && st.tasks != [] && TransitOf(st.tasks[0]) == multiset{}
    requires Slotted(st.sessions, st.channels, RtcAfter(st.tasks[0], st.rtc))
    requires Active(st.sessions, st.channels, RtcAfter(st.tasks[0], st.rtc), {})
    requires Booked(st.sockets, st.sessions, st.channels, RtcAfter(st.tasks[0], st.rtc), st.ledger, st.next)
    ensures Inv(st.(tasks := st.tasks[1..], rtc := RtcAfter(st.tasks[0], st.rtc)), HandOf(st.tasks[0]), {})
  {
    Read(st, multiset{}, {});
    HeadEvents(st.tasks, st.rtc);
    HeadCounted(st);
    HeadOpens(st.sessions, st.channels, st.tasks, st.openPosted);
    HeadMaps(st.sockets, st.socketMap, st.tasks);
    HeadProgress(st.sessions, st.tasks, st.exec);
    HeadNatives(st);
    HeadFresh(st);
    HeadOwned(st.sessions, st.tasks, st.owners, st.made);
    Hold(st.(tasks := st.tasks[1..], rtc := RtcAfter(st.tasks[0], st.rtc)), HandOf(st.tasks[0]), {});
  }

  // ----- The closed event of a data channel --------------------------------------------

  /** A channel leaves its slot when its DC closes. */
  lemma SlotEmptied(sessions: Sessions, channels: Channels, rtc: RtcMap, c: nat, busy: set<Ref>)
    requires Slotted(sessions, channels, rtc) && Active(sessions, channels, rtc, busy) && c in channels
    requires Dc(c) in rtc && channels[c].session in sessions
    ensures
      var s, x := channels[c].session, sessions[channels[c].session];
      var sessions' := sessions[s := x.(channels := SetSlot(x.channels, channels[c].index, None))];
      Slotted(sessions', channels, rtc - {Dc(c)}) && Active(sessions', channels, rtc - {Dc(c)}, busy)
  {
    var s, x := channels[c].session, sessions[channels[c].session];
    var sessions', rtc' := sessions[s := x.(channels := SetSlot(x.channels, channels[c].index, None))], rtc - {Dc(c)};
    assert InSlot(c, sessions, channels, rtc);
    forall z | z in sessions'
      ensures SlotsFilled(z, sessions', channels, rtc') && PartsActive(z, sessions', busy)
    {
      assert SlotsFilled(z, sessions, channels, rtc) && PartsActive(z, sessions, busy);
    }
    forall d | d in channels
      ensures InSlot(d, sessions', channels, rtc') && ChannelActive(d, sessions', channels, rtc', busy)
    {
      assert InSlot(d, sessions, channels, rtc) && ChannelActive(d, sessions, channels, rtc, busy);
    }
  }

  /** The record of a session whose channel of this index leaves its slot. */
  function Emptied(x: Session, index: nat): Session {
    x.(channels := SetSlot(x.channels, index, None))
  }

  lemma DcClosedTaken(st: State, c: nat)
    requires Invariant(st) && st.tasks != [] && st.tasks[0] == Event(Dc(c), Closed)
    ensures c in st.channels && st.channels[c].session in st.sessions
    ensures
      var s := st.channels[c].session;
      var y := Emptied(st.sessions[s], st.channels[c].index);
      Inv(st.(tasks := st.tasks[1..], rtc := st.rtc - {Dc(c)}, sessions := st.sessions[s := y],
              ledger := Straying(st.ledger, c, st.channels[c])), multiset{ChannelRef(c)}, {})
  {
    Read(st, multiset{}, {});
    HeadEvents(st.tasks, st.rtc);
    assert RtcRef(Dc(c)) == ChannelRef(c);
    assert Live(st.sockets, st.sessions, st.channels, RtcRef(Dc(c)));
    ChannelFacts(st, c, multiset{}, {});
    var s := st.channels[c].session;
    SessionFacts(st, s, multiset{}, {});
    var y := Emptied(st.sessions[s], st.channels[c].index);
    SlotEmptied(st.sessions, st.channels, st.rtc, c, {});
    DcClosedLayers(st, s, y);
    HeadMaps(st.sockets, st.socketMap, st.tasks);
    DcClosedBooked(st, c, s, y);
    Hold(st.(tasks := st.tasks[1..], rtc := st.rtc - {Dc(c)}, sessions := st.sessions[s := y],
             ledger := Straying(st.ledger, c, st.channels[c])), multiset{ChannelRef(c)}, {});
  }

  lemma DcClosedBooked(st: State, c: nat, s: nat, y: Session)
    requires Booked(st.sockets, st.sessions, st.channels, st.rtc, st.ledger, st.next)
    requires c in st.channels && Dc(c) in st.rtc && s in st.sessions
    ensures Booked(st.sockets, st.sessions[s := y], st.channels, st.rtc - {Dc(c)},
                   Straying(st.ledger, c, st.channels[c]), st.next)
  {
    var sessions', ledger' := st.sessions[s := y], Straying(st.ledger, c, st.channels[c]);
    forall r ensures Accounted(r, st.sockets, sessions', st.channels, ledger') {
      assert Accounted(r, st.sockets, st.sessions, st.channels, st.ledger);
    }
    forall d: nat ensures IsStray(d, st.channels, st.rtc - {Dc(c)}, ledger') {
      assert IsStray(d, st.channels, st.rtc, st.ledger);
    }
  }

  lemma DcClosedLayers(st: State, s: nat, y: Session)
    requires Invariant(st) && st.tasks != [] && s in st.sessions && TransitOf(st.tasks[0]) == multiset{}
    requires st.tasks[0].Event? && st.tasks[0].source in st.rtc
    requires y == st.sessions[s].(channels := y.channels) && |y.channels| == |st.sessions[s].channels|
    requires !st.sessions[s].authenticated ==> y.channels == []
    ensures
      var tasks', sessions' := st.tasks[1..], st.sessions[s := y];
      && Counted(st.sockets, sessions', st.channels, RtcAfter(st.tasks[0], st.rtc),
                 QueueRefs(tasks', st.exec) + HandOf(st.tasks[0]))
      && Listed(st.sockets, sessions', {}) && Timed(sessions', st.timers)
      && Conserved(sessions', tasks', st.exec, st.made, st.destroyed, st.lost)
      && Progressing(sessions', QueueRefs(tasks', st.exec))
      && OpensOnce(sessions', st.channels, tasks', st.openPosted)
      && Fresh(st.sockets, sessions', st.channels, st.socketMap, tasks', st.timers, st.openPosted, st.made, st.next)
      && Owned(sessions', tasks', st.owners, st.made) && Latent(sessions', st.timers, st.ledger.late, {})
  {
    var st1, out := st.(tasks := st.tasks[1..]), QueueRefs(st.tasks[1..], st.exec) + HandOf(st.tasks[0]);
    Read(st, multiset{}, {});
    HeadCounted(st);
    HeadOpens(st.sessions, st.channels, st.tasks, st.openPosted);
    HeadProgress(st.sessions, st.tasks, st.exec);
    HeadNatives(st);
    HeadFresh(st);
    HeadOwned(st.sessions, st.tasks, st.owners, st.made);
    SessionOwned(st.sessions, st1.tasks, st.owners, st.made, s, y);
    SameLatent(st.sessions, st.timers, st.ledger.late, s, y, {}, {});
    SessionFacts(st, s, multiset{}, {});
    assert SessionCounted(s, st.sockets, st.sessions, st.channels, RtcAfter(st.tasks[0], st.rtc), out);
    assert Progresses(s, st.sessions, QueueRefs(st1.tasks, st.exec));
    SessionCounts(st.sockets, st.sessions, st.channels, RtcAfter(st.tasks[0], st.rtc), s, y, out, out);
    SessionQuietLayers(st1, s, y, {});
    SessionNames(st1, SetSession(st1, s, y), s);
  }

  lemma DcClosedKeeps(st: State, c: nat, o: Outcome)
    requires Invariant(st) && st.tasks != [] && st.tasks[0] == Event(Dc(c), Closed)
    ensures Invariant(Loop(st, o))
  {
    DcClosedTaken(st, c);
    var s := st.channels[c].session;
    var st1 := st.(tasks := st.tasks[1..], rtc := st.rtc - {Dc(c)},
                   sessions := st.sessions[s := Emptied(st.sessions[s], st.channels[c].index)],
                   ledger := Straying(st.ledger, c, st.channels[c]));
    var none: set<Ref> := {};
    UnrefChannelKeeps(st1, c, multiset{ChannelRef(c)}, none);
    assert multiset{ChannelRef(c)} - multiset{ChannelRef(c)} == multiset{};
    assert Loop(st, o) == UnrefChannel(st1, c);
  }
}
