/** Dropping a reference in hand keeps the invariant, through the cascade of releases. */
module Unref {
  import opened Wrappers
  import opened Model
  import opened Lifecycle
  import opened Invariants
  import opened Counting
  import opened Updates

  /** One object is gone, and the reference it held is in hand instead of the last one to it. */
  lemma StillReferred(sockets: Sockets, sessions: Sessions, channels: Channels, sockets': Sockets,
                      sessions': Sessions, channels': Channels, rtc: RtcMap, out: multiset<Ref>,
                      out': multiset<Ref>, gone: Ref, kept: Ref)
    requires Referred(sockets, sessions, channels, rtc, out)
    requires forall r :: r != gone && Live(sockets, sessions, channels, r) ==> Live(sockets', sessions', channels', r)
    requires forall x {:trigger RtcRef(x)} :: x in rtc ==> RtcRef(x) != gone
    requires out[gone] == 1 && out' == out - multiset{gone} + multiset{kept} && kept != gone
    requires Live(sockets, sessions, channels, kept)
    ensures Referred(sockets', sessions', channels', rtc, out')
  {
    forall r | r in out' ensures Live(sockets', sessions', channels', r) {
      assert out'[gone] == 0;
      if r != kept {
        assert r in out;
        assert Live(sockets, sessions, channels, r);
      }
    }
    forall x | x in rtc ensures Live(sockets', sessions', channels', RtcRef(x)) {
      assert Live(sockets, sessions, channels, RtcRef(x));
    }
  }

  // ----- Sockets -----------------------------------------------------------------------

  lemma SocketRefDrops(st: State, k: nat, hand: multiset<Ref>, busy: set<Ref>)
    requires Inv(st, hand, busy) && SocketRef(k) in hand && k in st.sockets && st.sockets[k].ref > 1
    ensures Inv(UnrefSocket(st, k), hand - multiset{SocketRef(k)}, busy)
  {
    var x := st.sockets[k].(ref := st.sockets[k].ref - 1);
    var refs, hand' := QueueRefs(st.tasks, st.exec), hand - multiset{SocketRef(k)};
    Read(st, hand, busy);
    assert SocketCounted(k, st.sockets, st.sessions, st.rtc, refs + hand);
    SocketCounts(st.sockets, st.sessions, st.channels, st.rtc, k, x, refs + hand, refs + hand');
    SocketMapped(st.sockets, st.socketMap, st.tasks, k, x);
    SocketRelisted(st.sockets, st.sessions, k, x, busy);
    SameBooks(st.sockets, st.sessions, st.channels, st.sockets[k := x], st.sessions, st.channels, st.rtc, st.rtc,
              st.ledger, st.next, st.next);
    Hold(UnrefSocket(st, k), hand', busy);
  }

  lemma SocketRelisted(sockets: Sockets, sessions: Sessions, k: nat, x: Socket, busy: set<Ref>)
    requires Listed(sockets, sessions, busy) && k in sockets
    requires x.(ref := sockets[k].ref) == sockets[k]
    ensures Listed(sockets[k := x], sessions, busy)
  {
    var sockets' := sockets[k := x];
    forall j | j in sockets' ensures ListSound(j, sockets', sessions, busy) {
      assert ListSound(j, sockets, sessions, busy);
    }
    forall s | s in sessions ensures IsListed(s, sockets', sessions, busy) {
      assert IsListed(s, sockets, sessions, busy);
    }
  }

  /** The last reference: no session of this socket is left. */
  lemma LastSocketRef(st: State, k: nat, hand: multiset<Ref>, busy: set<Ref>)
    requires Inv(st, hand, busy) && SocketRef(k) in hand && k in st.sockets && st.sockets[k].ref == 1
    ensures !st.sockets[k].active && Wss(k) !in st.rtc
    ensures (QueueRefs(st.tasks, st.exec) + hand)[SocketRef(k)] == 1
    ensures forall s :: s in st.sessions ==> st.sessions[s].socket != k
  {
    assert Holds(Counts, st, hand, busy);
    assert SocketCounted(k, st.sockets, st.sessions, st.rtc, QueueRefs(st.tasks, st.exec) + hand);
    assert |SessionsOf(st.sessions, k)| == 0;
    forall s | s in st.sessions ensures st.sessions[s].socket != k {
      assert s !in SessionsOf(st.sessions, k);
    }
  }

  lemma SocketGone(sockets: Sockets, sessions: Sessions, channels: Channels, rtc: RtcMap, k: nat, out: multiset<Ref>)
    requires Counted(sockets, sessions, channels, rtc, out)
    requires k in sockets && Wss(k) !in rtc && out[SocketRef(k)] == 1
    requires forall s :: s in sessions ==> sessions[s].socket != k
    ensures Counted(sockets - {k}, sessions, channels, rtc, out - multiset{SocketRef(k)})
  {
    var sockets', out' := sockets - {k}, out - multiset{SocketRef(k)};
    forall j | j in sockets' ensures SocketCounted(j, sockets', sessions, rtc, out') {
      assert SocketCounted(j, sockets, sessions, rtc, out);
    }
    forall s | s in sessions ensures SessionCounted(s, sockets', sessions, channels, rtc, out') {
      assert SessionCounted(s, sockets, sessions, channels, rtc, out);
    }
    forall c | c in channels ensures ChannelCounted(c, sessions, channels, rtc, out') {
      assert ChannelCounted(c, sessions, channels, rtc, out);
    }
    forall r | r in out' ensures Live(sockets', sessions, channels, r) {
      assert Live(sockets, sessions, channels, r);
    }
    forall y | y in rtc ensures Live(sockets', sessions, channels, RtcRef(y)) {
      assert Live(sockets, sessions, channels, RtcRef(y));
    }
  }

  lemma SocketDelisted(sockets: Sockets, sessions: Sessions, k: nat, busy: set<Ref>)
    requires Listed(sockets, sessions, busy) && k in sockets
    requires forall s :: s in sessions ==> sessions[s].socket != k
    ensures Listed(sockets - {k}, sessions, busy)
  {
    var sockets' := sockets - {k};
    forall j | j in sockets' ensures ListSound(j, sockets', sessions, busy) {
      assert ListSound(j, sockets, sessions, busy);
    }
    forall s | s in sessions ensures IsListed(s, sockets', sessions, busy) {
      assert IsListed(s, sockets, sessions, busy);
    }
  }

  lemma SocketUnmapped(sockets: Sockets, socketMap: map<nat, nat>, tasks: seq<Task>, k: nat)
    requires Mapped(sockets, socketMap, tasks) && k in sockets
    ensures Mapped(sockets - {k}, socketMap - {sockets[k].native}, tasks)
  {
    var sockets', socketMap' := sockets - {k}, socketMap - {sockets[k].native};
    assert MappedBack(k, sockets, socketMap);
    forall j | j in sockets' ensures MappedBack(j, sockets', socketMap') {
      assert MappedBack(j, sockets, socketMap);
    }
    forall n | n in socketMap' ensures MapsToLive(n, sockets', socketMap') {
      assert MapsToLive(n, sockets, socketMap);
    }
    forall i: nat | i < |tasks| ensures ListensFirst(i, socketMap', tasks) {
      assert ListensFirst(i, socketMap, tasks);
    }
  }

  lemma SocketReleased(st: State, k: nat, hand: multiset<Ref>, busy: set<Ref>)
    requires Inv(st, hand, busy) && SocketRef(k) in hand && k in st.sockets && st.sockets[k].ref == 1
    ensures Inv(ReleaseSocket(st, k), hand - multiset{SocketRef(k)}, busy)
  {
    var refs := QueueRefs(st.tasks, st.exec);
    LastSocketRef(st, k, hand, busy);
    Read(st, hand, busy);
    SocketGone(st.sockets, st.sessions, st.channels, st.rtc, k, refs + hand);
    assert refs + hand - multiset{SocketRef(k)} == refs + (hand - multiset{SocketRef(k)});
    SocketDelisted(st.sockets, st.sessions, k, busy);
    SocketUnmapped(st.sockets, st.socketMap, st.tasks, k);
    forall n: nat | n in st.socketMap ensures Below(n, st.next) {}
    ObjectUnbooked(st.sockets, st.sessions, st.channels, st.sockets - {k}, st.sessions, st.channels, st.rtc, st.ledger,
                   st.next, SocketRef(k));
    Hold(ReleaseSocket(st, k), hand - multiset{SocketRef(k)}, busy);
  }

  lemma UnrefSocketKeeps(st: State, k: nat, hand: multiset<Ref>, busy: set<Ref>)
    requires Inv(st, hand, busy) && SocketRef(k) in hand
    ensures Inv(UnrefSocket(st, k), hand - multiset{SocketRef(k)}, busy)
  {
    assert Holds(Counts, st, hand, busy);
    assert Live(st.sockets, st.sessions, st.channels, SocketRef(k));
    assert SocketCounted(k, st.sockets, st.sessions, st.rtc, QueueRefs(st.tasks, st.exec) + hand);
    if st.sockets[k].ref > 1 {
      SocketRefDrops(st, k, hand, busy);
    } else {
      SocketReleased(st, k, hand, busy);
    }
  }

  // ----- Sessions ----------------------------------------------------------------------

  lemma UsablePushed(exec: seq<Command>, destroyed: multiset<nat>, command: Command)
    requires Usable(exec, destroyed)
    requires command.Receive? ==>
               command.target.Some? && command.target.value !in destroyed && Destroy(command.target.value) !in exec
    ensures Usable(exec + [command], destroyed)
  {
    forall i: nat | i < |exec + [command]| ensures UsableAt(i, exec + [command], destroyed) {
      if i < |exec| {
        assert UsableAt(i, exec, destroyed);
        assert (exec + [command])[..i] == exec[..i];
      } else {
        assert (exec + [command])[..i] == exec;
      }
    }
  }

  /** Giving up the native session, given where it goes. */
  lemma NativeLeaves(st: State, st': State, s: nat, hand: multiset<Ref>, busy: set<Ref>)
    requires Inv(st, hand, busy) && s in st.sessions && Silent(s, st.channels, st.rtc)
    requires st' == st.(sessions := st.sessions[s := st.sessions[s].(native := None)], exec := st'.exec,
                        lost := st'.lost)
    requires Conserved(st'.sessions, st.tasks, st'.exec, st.made, st.destroyed, st'.lost)
    requires Usable(st'.exec, st.destroyed)
    requires Gather(CommandRef, st'.exec) == Gather(CommandRef, st.exec)
    ensures Inv(st', hand, busy)
  {
    SessionFacts(st, s, hand, busy);
    WithoutNative(st, s, hand, busy);
    SessionKeeps(st, st', s, hand, hand, busy, busy);
  }

  /** The layers that look at the timers, the channels and the openings of the session. */
  lemma WithoutNative(st: State, s: nat, hand: multiset<Ref>, busy: set<Ref>)
    requires Inv(st, hand, busy) && s in st.sessions && Silent(s, st.channels, st.rtc)
    ensures
      var sessions' := st.sessions[s := st.sessions[s].(native := None)];
      && Timed(sessions', st.timers) && Latent(sessions', st.timers, st.ledger.late, busy)
      && OpensOnce(sessions', st.channels, st.tasks, st.openPosted)
      && (forall c :: c in st.channels && st.channels[c].session == s ==>
            ChannelActive(c, sessions', st.channels, st.rtc, busy))
  {
    var y := st.sessions[s].(native := None);
    Read(st, hand, busy);
    SameTimers(st.sessions, st.timers, s, y);
    SameLatent(st.sessions, st.timers, st.ledger.late, s, y, busy, busy);
    SameActivity(st.sessions, st.channels, st.rtc, s, y, busy);
    SessionOpens(st.sessions, st.channels, st.tasks, st.openPosted, s, y);
  }

  lemma DestroySubmitted(st: State, s: nat, hand: multiset<Ref>, busy: set<Ref>)
    requires Inv(st, hand, busy) && s in st.sessions && Silent(s, st.channels, st.rtc)
    requires st.sessions[s].native.Some? && ExecutorUp(st)
    ensures Inv(DestroyNative(st, s), hand, busy)
  {
    var n, y := st.sessions[s].native.value, st.sessions[s].(native := None);
    var exec' := st.exec + [Destroy(n)];
    Pushed(CommandRef, st.exec, Destroy(n));
    Pushed(RequestOf, st.exec, Destroy(n));
    assert Holds(Natives, st, hand, busy) && Holds(Commands, st, hand, busy);
    UsablePushed(st.exec, st.destroyed, Destroy(n));
    SessionConserved(st.sessions, st.tasks, st.tasks, st.exec, exec', st.made, st.destroyed, st.lost, st.lost, s, y);
    NativeLeaves(st, st.(sessions := st.sessions[s := y], exec := exec'), s, hand, busy);
  }

  lemma DestroyNativeKeeps(st: State, s: nat, hand: multiset<Ref>, busy: set<Ref>)
    requires Inv(st, hand, busy) && s in st.sessions && Silent(s, st.channels, st.rtc)
    ensures Inv(DestroyNative(st, s), hand, busy)
  {
    if st.sessions[s].native.Some? {
      if ExecutorUp(st) {
        DestroySubmitted(st, s, hand, busy);
      } else {
        var n, y := st.sessions[s].native.value, st.sessions[s].(native := None);
        var lost' := st.lost + multiset{n};
        assert Holds(Natives, st, hand, busy) && Holds(Commands, st, hand, busy);
        SessionConserved(st.sessions, st.tasks, st.tasks, st.exec, st.exec, st.made, st.destroyed, st.lost, lost', s,
                         y);
        NativeLeaves(st, st.(sessions := st.sessions[s := y], lost := lost'), s, hand, busy);
      }
    }
  }

  /** The invariant read at one session. */
  lemma SessionFacts(st: State, s: nat, hand: multiset<Ref>, busy: set<Ref>)
    requires Inv(st, hand, busy) && s in st.sessions
    ensures SessionCounted(s, st.sockets, st.sessions, st.channels, st.rtc, QueueRefs(st.tasks, st.exec) + hand)
    ensures PartsActive(s, st.sessions, busy)
    ensures IsListed(s, st.sockets, st.sessions, busy)
    ensures TimersLive(s, st.sessions, st.timers)
    ensures Progresses(s, st.sessions, QueueRefs(st.tasks, st.exec))
    ensures forall t :: t in st.timers && st.timers[t].s == s ==> TimerOwned(t, st.sessions, st.timers)
  {
    Read(st, hand, busy);
  }

  lemma TimeoutCleared(st: State, s: nat, t: nat, hand: multiset<Ref>, busy: set<Ref>)
    requires Inv(st, hand, busy) && s in st.sessions && st.sessions[s].timeout == Some(t)
    ensures Inv(st.(timers := st.timers - {t}, sessions := st.sessions[s := st.sessions[s].(timeout := None)]),
                hand, busy)
  {
    var y, timers' := st.sessions[s].(timeout := None), st.timers - {t};
    SessionFacts(st, s, hand, busy);
    assert Holds(Clocks, st, hand, busy);
    SessionTimed(st.sessions, st.timers, timers', s, y);
    assert Holds(Pings, st, hand, busy);
    TimeoutLatent(st.sessions, st.timers, timers', st.ledger.late, s, y, busy);
    TimersChange(st, st.(timers := timers', sessions := st.sessions[s := y]), s, hand, busy);
  }

  lemma UnscheduleTimeoutKeeps(st: State, s: nat, hand: multiset<Ref>, busy: set<Ref>)
    requires Inv(st, hand, busy) && s in st.sessions
    ensures Inv(UnscheduleTimeout(st, s), hand, busy)
  {
    if st.sessions[s].timeout.Some? {
      TimeoutCleared(st, s, st.sessions[s].timeout.value, hand, busy);
    }
  }

  lemma SessionRefDrops(st: State, s: nat, hand: multiset<Ref>, busy: set<Ref>)
    requires Inv(st, hand, busy) && SessionRef(s) in hand && s in st.sessions && st.sessions[s].ref > 1
    ensures Inv(SetSession(st, s, st.sessions[s].(ref := st.sessions[s].ref - 1)), hand - multiset{SessionRef(s)}, busy)
  {
    var y := st.sessions[s].(ref := st.sessions[s].ref - 1);
    SessionFacts(st, s, hand, busy);
    SessionOnlyKeeps(st, SetSession(st, s, y), s, hand, hand - multiset{SessionRef(s)}, busy);
  }

  /** The last reference: the session is closed, and neither its WS, its PC nor a channel is left. */
  lemma LastSessionRef(st: State, s: nat, hand: multiset<Ref>, busy: set<Ref>)
    requires Inv(st, hand, busy) && SessionRef(s) in hand && s in st.sessions && st.sessions[s].ref == 1
    ensures !st.sessions[s].active && Ws(s) !in st.rtc && Pc(s) !in st.rtc
    ensures (QueueRefs(st.tasks, st.exec) + hand)[SessionRef(s)] == 1
    ensures SessionRef(s) !in QueueRefs(st.tasks, st.exec)
    ensures forall c :: c in st.channels ==> st.channels[c].session != s
  {
    SessionFacts(st, s, hand, busy);
    assert |ChannelsOf(st.channels, s)| == 0;
    forall c | c in st.channels ensures st.channels[c].session != s {
      assert c !in ChannelsOf(st.channels, s);
    }
  }

  lemma SessionGone(sockets: Sockets, sessions: Sessions, channels: Channels, rtc: RtcMap, s: nat,
                    out: multiset<Ref>, out': multiset<Ref>)
    requires Counted(sockets, sessions, channels, rtc, out)
    requires s in sessions && Ws(s) !in rtc && Pc(s) !in rtc && out[SessionRef(s)] == 1
    requires forall c :: c in channels ==> channels[c].session != s
    requires out' == out - multiset{SessionRef(s)} + multiset{SocketRef(sessions[s].socket)}
    ensures Counted(sockets, sessions - {s}, channels, rtc, out')
  {
    var sessions' := sessions - {s};
    SessionsOfRemove(sessions, s);
    assert SessionCounted(s, sockets, sessions, channels, rtc, out);
    forall j | j in sockets ensures SocketCounted(j, sockets, sessions', rtc, out') {
      assert SocketCounted(j, sockets, sessions, rtc, out);
    }
    forall z | z in sessions' ensures SessionCounted(z, sockets, sessions', channels, rtc, out') {
      assert SessionCounted(z, sockets, sessions, channels, rtc, out);
    }
    forall c | c in channels ensures ChannelCounted(c, sessions', channels, rtc, out') {
      assert ChannelCounted(c, sessions, channels, rtc, out);
    }
    StillReferred(sockets, sessions, channels, sockets, sessions', channels, rtc, out, out', SessionRef(s),
                  SocketRef(sessions[s].socket));
  }

  lemma SessionUnslotted(sessions: Sessions, channels: Channels, rtc: RtcMap, s: nat, busy: set<Ref>)
    requires Slotted(sessions, channels, rtc) && Active(sessions, channels, rtc, busy)
    requires s in sessions && forall c :: c in channels ==> channels[c].session != s
    ensures Slotted(sessions - {s}, channels, rtc) && Active(sessions - {s}, channels, rtc, busy)
  {
    var sessions' := sessions - {s};
    forall z | z in sessions'
      ensures SlotsFilled(z, sessions', channels, rtc) && PartsActive(z, sessions', busy)
    {
      assert SlotsFilled(z, sessions, channels, rtc);
      assert PartsActive(z, sessions, busy);
    }
    forall c | c in channels
      ensures InSlot(c, sessions', channels, rtc) && ChannelActive(c, sessions', channels, rtc, busy)
    {
      assert InSlot(c, sessions, channels, rtc);
      assert ChannelActive(c, sessions, channels, rtc, busy);
    }
  }

  lemma SessionUnlisted(sockets: Sockets, sessions: Sessions, s: nat, busy: set<Ref>)
    requires Listed(sockets, sessions, busy) && s in sessions && sessions[s].entry.None?
    ensures Listed(sockets, sessions - {s}, busy)
  {
    var sessions' := sessions - {s};
    forall j | j in sockets ensures ListSound(j, sockets, sessions', busy) {
      assert ListSound(j, sockets, sessions, busy);
    }
    forall z | z in sessions' ensures IsListed(z, sockets, sessions', busy) {
      assert IsListed(z, sockets, sessions, busy);
    }
  }

  lemma SessionUntimed(sessions: Sessions, timers: Timers, s: nat)
    requires Timed(sessions, timers) && s in sessions && sessions[s].timeout.None?
    ensures Timed(sessions - {s}, timers)
  {
    var sessions' := sessions - {s};
    forall t | t in timers ensures TimerOwned(t, sessions', timers) {
      assert TimerOwned(t, sessions, timers);
    }
    forall z | z in sessions' ensures TimersLive(z, sessions', timers) {
      assert TimersLive(z, sessions, timers);
    }
  }

  lemma SessionForgotten(st: State, s: nat, pending: multiset<Ref>)
    requires Conserved(st.sessions, st.tasks, st.exec, st.made, st.destroyed, st.lost)
    requires Progressing(st.sessions, pending) && OpensOnce(st.sessions, st.channels, st.tasks, st.openPosted)
    requires s in st.sessions && st.sessions[s].native.None?
    requires forall c :: c in st.channels ==> st.channels[c].session != s
    ensures Conserved(st.sessions - {s}, st.tasks, st.exec, st.made, st.destroyed, st.lost)
    ensures Progressing(st.sessions - {s}, pending)
    ensures OpensOnce(st.sessions - {s}, st.channels, st.tasks, st.openPosted)
  {
    var sessions' := st.sessions - {s};
    HoldersOfRemove(st.sessions, s);
    forall n: nat ensures OnePlace(n, sessions', st.tasks, st.exec, st.made, st.destroyed, st.lost) {
      assert OnePlace(n, st.sessions, st.tasks, st.exec, st.made, st.destroyed, st.lost);
    }
    forall z | z in sessions' ensures Progresses(z, sessions', pending) {
      assert Progresses(z, st.sessions, pending);
    }
    forall c | c in st.channels ensures IsMember(c, sessions', st.channels) {
      assert IsMember(c, st.sessions, st.channels);
    }
    forall i: nat | i < |st.tasks| ensures OpensFirst(i, sessions', st.tasks, st.openPosted) {
      assert OpensFirst(i, st.sessions, st.tasks, st.openPosted);
    }
  }

  lemma SessionDisowned(sessions: Sessions, timers: Timers, late: map<nat, nat>, tasks: seq<Task>,
                        owners: map<nat, nat>, made: set<nat>, s: nat, busy: set<Ref>)
    requires Owned(sessions, tasks, owners, made) && Latent(sessions, timers, late, busy)
    requires s in sessions && !sessions[s].active && SessionRef(s) !in busy
    ensures Owned(sessions - {s}, tasks, owners, made) && Latent(sessions - {s}, timers, late, busy)
  {
    var sessions' := sessions - {s};
    forall z | z in sessions' ensures OwnsNative(z, sessions', owners) {
      assert OwnsNative(z, sessions, owners);
    }
    forall t | t in timers ensures PingLate(t, sessions', timers, late, busy) {
      assert PingLate(t, sessions, timers, late, busy);
    }
    forall z | z in late ensures LateLives(z, sessions', timers, late) {
      assert LateLives(z, sessions, timers, late);
    }
  }

  /** The reference of a released session to its socket passes into the hand. */
  lemma SessionRemoved(st: State, s: nat, hand: multiset<Ref>, busy: set<Ref>)
    requires Inv(st, hand, busy) && SessionRef(s) in hand && s in st.sessions && st.sessions[s].ref == 1
    requires SessionRef(s) !in busy && st.sessions[s].native.None? && st.sessions[s].timeout.None?
    ensures Inv(st.(sessions := st.sessions - {s}, ledger := Released(st.ledger, SessionRef(s))),
                hand - multiset{SessionRef(s)} + multiset{SocketRef(st.sessions[s].socket)}, busy)
  {
    var refs := QueueRefs(st.tasks, st.exec);
    var hand' := hand - multiset{SessionRef(s)} + multiset{SocketRef(st.sessions[s].socket)};
    LastSessionRef(st, s, hand, busy);
    Read(st, hand, busy);
    assert IsListed(s, st.sockets, st.sessions, busy);
    SessionGone(st.sockets, st.sessions, st.channels, st.rtc, s, refs + hand, refs + hand');
    SessionUnslotted(st.sessions, st.channels, st.rtc, s, busy);
    SessionUnlisted(st.sockets, st.sessions, s, busy);
    SessionUntimed(st.sessions, st.timers, s);
    SessionForgotten(st, s, refs);
    SessionDisowned(st.sessions, st.timers, st.ledger.late, st.tasks, st.owners, st.made, s, busy);
    forall z | z in st.sessions - {s} ensures SessionFresh(st.sessions[z], st.next) {}
    ObjectUnbooked(st.sockets, st.sessions, st.channels, st.sockets, st.sessions - {s}, st.channels, st.rtc, st.ledger,
                   st.next, SessionRef(s));
    Hold(st.(sessions := st.sessions - {s}, ledger := Released(st.ledger, SessionRef(s))), hand', busy);
  }

  /** A released session first gives up its native session and its timeout. */
  lemma SessionStripped(st: State, s: nat, hand: multiset<Ref>, busy: set<Ref>)
    requires Inv(st, hand, busy) && SessionRef(s) in hand && s in st.sessions && st.sessions[s].ref == 1
    ensures
      var st' := UnscheduleTimeout(DestroyNative(st, s), s);
      && Inv(st', hand, busy) && s in st'.sessions
      && st'.sessions[s] == st.sessions[s].(native := None, timeout := None)
  {
    LastSessionRef(st, s, hand, busy);
    DestroyNativeKeeps(st, s, hand, busy);
    UnscheduleTimeoutKeeps(DestroyNative(st, s), s, hand, busy);
  }

  lemma ReleaseSessionKeeps(st: State, s: nat, hand: multiset<Ref>, busy: set<Ref>)
    requires Inv(st, hand, busy) && SessionRef(s) in hand && s in st.sessions && st.sessions[s].ref == 1
    requires SessionRef(s) !in busy
    ensures Inv(ReleaseSession(st, s), hand - multiset{SessionRef(s)}, busy)
  {
    SessionStripped(st, s, hand, busy);
    var st' := UnscheduleTimeout(DestroyNative(st, s), s);
    var k := st.sessions[s].socket;
    SessionRemoved(st', s, hand, busy);
    var hand' := hand - multiset{SessionRef(s)} + multiset{SocketRef(k)};
    UnrefSocketKeeps(st'.(sessions := st'.sessions - {s}, ledger := Released(st'.ledger, SessionRef(s))), k, hand',
                     busy);
    assert hand' - multiset{SocketRef(k)} == hand - multiset{SessionRef(s)};
  }

  /** A session that is being closed keeps at least the reference its closing has in hand. */
  lemma UnrefSessionKeeps(st: State, s: nat, hand: multiset<Ref>, busy: set<Ref>)
    requires Inv(st, hand, busy) && SessionRef(s) in hand
    requires SessionRef(s) in busy ==> hand[SessionRef(s)] > 1
    ensures Inv(UnrefSession(st, s), hand - multiset{SessionRef(s)}, busy)
  {
    assert Holds(Counts, st, hand, busy);
    assert Live(st.sockets, st.sessions, st.channels, SessionRef(s));
    assert SessionCounted(s, st.sockets, st.sessions, st.channels, st.rtc, QueueRefs(st.tasks, st.exec) + hand);
    if st.sessions[s].ref > 1 {
      SessionRefDrops(st, s, hand, busy);
    } else {
      ReleaseSessionKeeps(st, s, hand, busy);
    }
  }

  // ----- Channels ----------------------------------------------------------------------

  /** The invariant read at one channel. */
  lemma ChannelFacts(st: State, c: nat, hand: multiset<Ref>, busy: set<Ref>)
    requires Inv(st, hand, busy) && c in st.channels
    ensures ChannelCounted(c, st.sessions, st.channels, st.rtc, QueueRefs(st.tasks, st.exec) + hand)
    ensures InSlot(c, st.sessions, st.channels, st.rtc)
    ensures ChannelActive(c, st.sessions, st.channels, st.rtc, busy)
    ensures PartsActive(st.channels[c].session, st.sessions, busy)
    ensures SlotsFilled(st.channels[c].session, st.sessions, st.channels, st.rtc)
    ensures IsMember(c, st.sessions, st.channels)
  {
    Read(st, hand, busy);
    assert ChannelCounted(c, st.sessions, st.channels, st.rtc, QueueRefs(st.tasks, st.exec) + hand);
  }

  lemma ChannelRefDrops(st: State, c: nat, hand: multiset<Ref>, busy: set<Ref>)
    requires Inv(st, hand, busy) && ChannelRef(c) in hand && c in st.channels && st.channels[c].ref > 1
    ensures Inv(SetChannel(st, c, st.channels[c].(ref := st.channels[c].ref - 1)), hand - multiset{ChannelRef(c)}, busy)
  {
    ChannelFacts(st, c, hand, busy);
    assert Holds(Natives, st, hand, busy) && Holds(Commands, st, hand, busy);
    ChannelKeeps(st, SetChannel(st, c, st.channels[c].(ref := st.channels[c].ref - 1)), c, hand,
                 hand - multiset{ChannelRef(c)}, busy);
  }

  lemma ChannelGone(sockets: Sockets, sessions: Sessions, channels: Channels, rtc: RtcMap, c: nat,
                    out: multiset<Ref>, out': multiset<Ref>)
    requires Counted(sockets, sessions, channels, rtc, out)
    requires c in channels && Dc(c) !in rtc && out[ChannelRef(c)] == 1
    requires out' == out - multiset{ChannelRef(c)} + multiset{SessionRef(channels[c].session)}
    ensures Counted(sockets, sessions, channels - {c}, rtc, out')
  {
    var channels' := channels - {c};
    assert ChannelCounted(c, sessions, channels, rtc, out);
    forall j | j in sockets ensures SocketCounted(j, sockets, sessions, rtc, out') {
      assert SocketCounted(j, sockets, sessions, rtc, out);
    }
    OneChannelFewer(sockets, sessions, channels, rtc, c, out, out');
    forall d | d in channels' ensures ChannelCounted(d, sessions, channels', rtc, out') {
      assert ChannelCounted(d, sessions, channels, rtc, out);
    }
    forall y | y in rtc ensures RtcRef(y) != ChannelRef(c) {
      if y.Dc? { assert y == Dc(y.c); }
    }
    StillReferred(sockets, sessions, channels, sockets, sessions, channels', rtc, out, out', ChannelRef(c),
                  SessionRef(channels[c].session));
  }

  /** The session counts one channel less, and one reference in hand more. */
  lemma OneChannelFewer(sockets: Sockets, sessions: Sessions, channels: Channels, rtc: RtcMap, c: nat,
                        out: multiset<Ref>, out': multiset<Ref>)
    requires SessionsCounted(sockets, sessions, channels, rtc, out) && c in channels
    requires out' == out - multiset{ChannelRef(c)} + multiset{SessionRef(channels[c].session)}
    ensures SessionsCounted(sockets, sessions, channels - {c}, rtc, out')
  {
    ChannelsOfRemove(channels, c);
    forall z | z in sessions ensures SessionCounted(z, sockets, sessions, channels - {c}, rtc, out') {
      assert SessionCounted(z, sockets, sessions, channels, rtc, out);
    }
  }

  lemma ChannelUnslotted(sessions: Sessions, channels: Channels, rtc: RtcMap, c: nat, busy: set<Ref>)
    requires Slotted(sessions, channels, rtc) && Active(sessions, channels, rtc, busy)
    requires c in channels && Dc(c) !in rtc && !channels[c].active
    ensures Slotted(sessions, channels - {c}, rtc) && Active(sessions, channels - {c}, rtc, busy)
  {
    var channels' := channels - {c};
    forall z | z in sessions
      ensures SlotsFilled(z, sessions, channels', rtc) && PartsActive(z, sessions, busy)
    {
      assert SlotsFilled(z, sessions, channels, rtc);
      assert PartsActive(z, sessions, busy);
    }
    forall d | d in channels'
      ensures InSlot(d, sessions, channels', rtc) && ChannelActive(d, sessions, channels', rtc, busy)
    {
      assert InSlot(d, sessions, channels, rtc);
      assert ChannelActive(d, sessions, channels, rtc, busy);
    }
  }

  /** The reference of a released channel to its session passes into the hand. */
  lemma ChannelRemoved(st: State, c: nat, hand: multiset<Ref>, busy: set<Ref>)
    requires Inv(st, hand, busy) && ChannelRef(c) in hand && c in st.channels && st.channels[c].ref == 1
    ensures Inv(st.(channels := st.channels - {c}, ledger := Released(st.ledger, ChannelRef(c))),
                hand - multiset{ChannelRef(c)} + multiset{SessionRef(st.channels[c].session)}, busy)
  {
    var refs := QueueRefs(st.tasks, st.exec);
    var hand' := hand - multiset{ChannelRef(c)} + multiset{SessionRef(st.channels[c].session)};
    ChannelFacts(st, c, hand, busy);
    Read(st, hand, busy);
    ChannelGone(st.sockets, st.sessions, st.channels, st.rtc, c, refs + hand, refs + hand');
    ChannelUnslotted(st.sessions, st.channels, st.rtc, c, busy);
    forall d | d in st.channels - {c}
      ensures IsMember(d, st.sessions, st.channels - {c})
    {
      assert IsMember(d, st.sessions, st.channels);
    }
    ObjectUnbooked(st.sockets, st.sessions, st.channels, st.sockets, st.sessions, st.channels - {c}, st.rtc, st.ledger,
                   st.next, ChannelRef(c));
    Hold(st.(channels := st.channels - {c}, ledger := Released(st.ledger, ChannelRef(c))), hand', busy);
  }

  lemma UnrefChannelKeeps(st: State, c: nat, hand: multiset<Ref>, busy: set<Ref>)
    requires Inv(st, hand, busy) && ChannelRef(c) in hand
    requires c in st.channels && SessionRef(st.channels[c].session) in busy ==>
               SessionRef(st.channels[c].session) in hand
    ensures Inv(UnrefChannel(st, c), hand - multiset{ChannelRef(c)}, busy)
  {
    assert Holds(Counts, st, hand, busy);
    assert Live(st.sockets, st.sessions, st.channels, ChannelRef(c));
    assert ChannelCounted(c, st.sessions, st.channels, st.rtc, QueueRefs(st.tasks, st.exec) + hand);
    if st.channels[c].ref > 1 {
      ChannelRefDrops(st, c, hand, busy);
    } else {
      var s := st.channels[c].session;
      var hand' := hand - multiset{ChannelRef(c)} + multiset{SessionRef(s)};
      ChannelRemoved(st, c, hand, busy);
      UnrefSessionKeeps(st.(channels := st.channels - {c}, ledger := Released(st.ledger, ChannelRef(c))), s, hand',
                        busy);
      assert hand' - multiset{SessionRef(s)} == hand - multiset{ChannelRef(c)};
    }
  }
}
