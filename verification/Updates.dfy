/** What it takes for the layers of the invariant to survive the update of one record. */
module Updates {
  import opened Wrappers
  import opened Model
  import opened Lifecycle
  import opened Invariants
  import opened Counting

  /** The references in hand and on the way differ at most in r. */
  ghost predicate SameBut(out: multiset<Ref>, out': multiset<Ref>, r: Ref) {
    forall r' :: r' != r ==> out'[r'] == out[r']
  }

  ghost predicate BusyBut(busy: set<Ref>, busy': set<Ref>, r: Ref) {
    forall r' :: r' != r ==> (r' in busy <==> r' in busy')
  }

  // ----- The books ---------------------------------------------------------------------

  /** The same objects are live, and the same channels are active after their DC closed. */
  lemma SameBooks(sockets: Sockets, sessions: Sessions, channels: Channels, sockets': Sockets, sessions': Sessions,
                  channels': Channels, rtc: RtcMap, rtc': RtcMap, ledger: Ledger, next: nat, next': nat)
    requires Booked(sockets, sessions, channels, rtc, ledger, next) && next <= next'
    requires sockets'.Keys == sockets.Keys && sessions'.Keys == sessions.Keys && channels'.Keys == channels.Keys
    requires forall c :: c in channels ==>
               && (Dc(c) in rtc' <==> Dc(c) in rtc)
               && channels'[c].index == channels[c].index
               && (channels'[c].active == channels[c].active || channels[c].index == SYSTEM_INDEX || Dc(c) in rtc)
    ensures Booked(sockets', sessions', channels', rtc', ledger, next')
  {
    assert forall k :: k in sockets' <==> k in sockets;
    assert forall s :: s in sessions' <==> s in sessions;
    assert forall c :: c in channels' <==> c in channels;
    forall r ensures Accounted(r, sockets', sessions', channels', ledger) {
      assert Accounted(r, sockets, sessions, channels, ledger);
    }
    forall c: nat ensures IsStray(c, channels', rtc', ledger) {
      assert IsStray(c, channels, rtc, ledger);
    }
  }

  /** The late pings are in no book. */
  lemma LateBooks(sockets: Sockets, sessions: Sessions, channels: Channels, rtc: RtcMap, ledger: Ledger, next: nat,
                  late: map<nat, nat>)
    requires Booked(sockets, sessions, channels, rtc, ledger, next)
    ensures Booked(sockets, sessions, channels, rtc, ledger.(late := late), next)
  {
    var ledger' := ledger.(late := late);
    forall r ensures Accounted(r, sockets, sessions, channels, ledger') {
      assert Accounted(r, sockets, sessions, channels, ledger);
    }
    forall c: nat ensures IsStray(c, channels, rtc, ledger') {
      assert IsStray(c, channels, rtc, ledger);
    }
  }

  lemma ObjectBooked(sockets: Sockets, sessions: Sessions, channels: Channels, sockets': Sockets, sessions': Sessions,
                     channels': Channels, rtc: RtcMap, rtc': RtcMap, ledger: Ledger, next: nat, next': nat, r0: Ref)
    requires Booked(sockets, sessions, channels, rtc, ledger, next) && next <= NameOf(r0) < next'
    requires forall r :: Live(sockets', sessions', channels', r) <==> Live(sockets, sessions, channels, r) || r == r0
    requires forall c :: c in channels ==>
               c in channels' && channels'[c] == channels[c] && (Dc(c) in rtc' <==> Dc(c) in rtc)
    requires forall c :: c in channels' && c !in channels ==> Dc(c) in rtc'
    requires !Live(sockets, sessions, channels, r0)
    ensures Booked(sockets', sessions', channels', rtc', Acquired(ledger, r0), next')
  {
    var ledger' := Acquired(ledger, r0);
    forall r ensures Accounted(r, sockets', sessions', channels', ledger') {
      assert Accounted(r, sockets, sessions, channels, ledger);
    }
    forall c: nat ensures IsStray(c, channels', rtc', ledger') {
      assert IsStray(c, channels, rtc, ledger);
    }
  }

  lemma ObjectUnbooked(sockets: Sockets, sessions: Sessions, channels: Channels, sockets': Sockets,
                       sessions': Sessions, channels': Channels, rtc: RtcMap, ledger: Ledger, next: nat, gone: Ref)
    requires Booked(sockets, sessions, channels, rtc, ledger, next) && Live(sockets, sessions, channels, gone)
    requires forall r :: Live(sockets', sessions', channels', r) <==> Live(sockets, sessions, channels, r) && r != gone
    requires forall c :: c in channels' ==> c in channels && channels'[c] == channels[c]
    requires forall c :: c in channels && c !in channels' ==> !channels[c].active
    ensures Booked(sockets', sessions', channels', rtc, Released(ledger, gone), next)
  {
    var ledger' := Released(ledger, gone);
    forall r ensures Accounted(r, sockets', sessions', channels', ledger') {
      assert Accounted(r, sockets, sessions, channels, ledger);
    }
    forall c: nat ensures IsStray(c, channels', rtc, ledger') {
      assert IsStray(c, channels, rtc, ledger);
    }
  }

  // ----- One socket --------------------------------------------------------------------

  lemma SocketCounts(sockets: Sockets, sessions: Sessions, channels: Channels, rtc: RtcMap, k: nat, x: Socket,
                     out: multiset<Ref>, out': multiset<Ref>)
    requires Counted(sockets, sessions, channels, rtc, out)
    requires k in sockets && SameBut(out, out', SocketRef(k))
    requires SocketCounted(k, sockets[k := x], sessions, rtc, out')
    ensures Counted(sockets[k := x], sessions, channels, rtc, out')
  {
    var sockets' := sockets[k := x];
    forall j | j in sockets' ensures SocketCounted(j, sockets', sessions, rtc, out') {
      if j != k { assert SocketCounted(j, sockets, sessions, rtc, out); }
    }
    forall s | s in sessions ensures SessionCounted(s, sockets', sessions, channels, rtc, out') {
      assert SessionCounted(s, sockets, sessions, channels, rtc, out);
    }
    forall c | c in channels ensures ChannelCounted(c, sessions, channels, rtc, out') {
      assert ChannelCounted(c, sessions, channels, rtc, out);
    }
    forall r | r in out' ensures Live(sockets', sessions, channels, r) {
      if r != SocketRef(k) { assert Live(sockets, sessions, channels, r); }
    }
    forall y | y in rtc ensures Live(sockets', sessions, channels, RtcRef(y)) {
      assert Live(sockets, sessions, channels, RtcRef(y));
    }
  }

  lemma SocketMapped(sockets: Sockets, socketMap: map<nat, nat>, tasks: seq<Task>, k: nat, x: Socket)
    requires Mapped(sockets, socketMap, tasks)
    requires k in sockets && x.native == sockets[k].native && x.modes == sockets[k].modes
    ensures Mapped(sockets[k := x], socketMap, tasks)
  {
    var sockets' := sockets[k := x];
    forall j | j in sockets' ensures MappedBack(j, sockets', socketMap) {
      assert MappedBack(j, sockets, socketMap);
    }
    forall n | n in socketMap ensures MapsToLive(n, sockets', socketMap) {
      assert MapsToLive(n, sockets, socketMap);
    }
  }

  /** The list of a socket changes along with the entry of at most one session. */
  lemma ListChanges(sockets: Sockets, sessions: Sessions, k: nat, x: Socket, s: nat, y: Session,
                    busy: set<Ref>, busy': set<Ref>)
    requires Listed(sockets, sessions, busy)
    requires k in sockets && s in sessions && sessions[s].socket == k && y.socket == k
    requires ListSound(k, sockets[k := x], sessions[s := y], busy')
    requires IsListed(s, sockets[k := x], sessions[s := y], busy')
    requires forall node :: node in sockets[k].sessions && node.session != s ==> node in x.sessions
    requires forall r :: r != SessionRef(s) && r != SocketRef(k) ==> (r in busy <==> r in busy')
    ensures Listed(sockets[k := x], sessions[s := y], busy')
  {
    var sockets', sessions' := sockets[k := x], sessions[s := y];
    forall j | j in sockets' ensures ListSound(j, sockets', sessions', busy') {
      if j != k { assert ListSound(j, sockets, sessions, busy); }
    }
    forall z | z in sessions' ensures IsListed(z, sockets', sessions', busy') {
      if z != s { assert IsListed(z, sockets, sessions, busy); }
    }
  }

  // ----- One session -------------------------------------------------------------------

  lemma SessionCounts(sockets: Sockets, sessions: Sessions, channels: Channels, rtc: RtcMap, s: nat, x: Session,
                      out: multiset<Ref>, out': multiset<Ref>)
    requires Counted(sockets, sessions, channels, rtc, out)
    requires s in sessions && x.socket == sessions[s].socket && SameBut(out, out', SessionRef(s))
    requires SessionCounted(s, sockets, sessions[s := x], channels, rtc, out')
    ensures Counted(sockets, sessions[s := x], channels, rtc, out')
  {
    var sessions' := sessions[s := x];
    SessionsOfUpdate(sessions, s, x);
    forall j | j in sockets ensures SocketCounted(j, sockets, sessions', rtc, out') {
      assert SocketCounted(j, sockets, sessions, rtc, out);
    }
    forall z | z in sessions' ensures SessionCounted(z, sockets, sessions', channels, rtc, out') {
      if z != s { assert SessionCounted(z, sockets, sessions, channels, rtc, out); }
    }
    forall c | c in channels ensures ChannelCounted(c, sessions', channels, rtc, out') {
      assert ChannelCounted(c, sessions, channels, rtc, out);
    }
    forall r | r in out' ensures Live(sockets, sessions', channels, r) {
      if r != SessionRef(s) { assert Live(sockets, sessions, channels, r); }
    }
    forall y | y in rtc ensures Live(sockets, sessions', channels, RtcRef(y)) {
      assert Live(sockets, sessions, channels, RtcRef(y));
    }
  }

  lemma SessionSlots(sessions: Sessions, channels: Channels, rtc: RtcMap, s: nat, x: Session)
    requires Slotted(sessions, channels, rtc)
    requires s in sessions && x.channels == sessions[s].channels && x.system == sessions[s].system
    ensures Slotted(sessions[s := x], channels, rtc)
  {
    var sessions' := sessions[s := x];
    forall z | z in sessions' ensures SlotsFilled(z, sessions', channels, rtc) {
      assert SlotsFilled(z, sessions, channels, rtc);
    }
    forall c | c in channels ensures InSlot(c, sessions', channels, rtc) {
      assert InSlot(c, sessions, channels, rtc);
    }
  }

  lemma SessionActivity(sessions: Sessions, channels: Channels, rtc: RtcMap, s: nat, x: Session,
                        busy: set<Ref>, busy': set<Ref>)
    requires Active(sessions, channels, rtc, busy)
    requires s in sessions && BusyBut(busy, busy', SessionRef(s))
    requires PartsActive(s, sessions[s := x], busy')
    requires forall c :: c in channels && channels[c].session == s ==>
               ChannelActive(c, sessions[s := x], channels, rtc, busy')
    ensures Active(sessions[s := x], channels, rtc, busy')
  {
    var sessions' := sessions[s := x];
    forall z | z in sessions' ensures PartsActive(z, sessions', busy') {
      if z != s { assert PartsActive(z, sessions, busy); }
    }
    forall c | c in channels ensures ChannelActive(c, sessions', channels, rtc, busy') {
      assert ChannelActive(c, sessions, channels, rtc, busy);
    }
  }

  lemma SessionListed(sockets: Sockets, sessions: Sessions, s: nat, x: Session, busy: set<Ref>, busy': set<Ref>)
    requires Listed(sockets, sessions, busy)
    requires s in sessions && BusyBut(busy, busy', SessionRef(s))
    requires x.socket == sessions[s].socket && x.entry == sessions[s].entry
    requires SessionRef(s) !in busy' ==> (x.active <==> x.entry.Some?)
    ensures Listed(sockets, sessions[s := x], busy')
  {
    var sessions' := sessions[s := x];
    forall j | j in sockets ensures ListSound(j, sockets, sessions', busy') {
      assert ListSound(j, sockets, sessions, busy);
    }
    forall z | z in sessions' ensures IsListed(z, sockets, sessions', busy') {
      assert IsListed(z, sockets, sessions, busy);
    }
  }

  /** Of the pointers to timers, one session's change, along with the timers they name. */
  lemma SessionTimed(sessions: Sessions, timers: Timers, timers': Timers, s: nat, x: Session)
    requires Timed(sessions, timers) && s in sessions
    requires TimersLive(s, sessions[s := x], timers')
    requires forall t :: t in timers' && timers'[t].s == s ==> TimerOwned(t, sessions[s := x], timers')
    requires forall t :: t in timers' && timers'[t].s != s ==> t in timers && timers[t] == timers'[t]
    requires forall t :: t in timers && timers[t].s != s ==> t in timers' && timers'[t] == timers[t]
    ensures Timed(sessions[s := x], timers')
  {
    var sessions' := sessions[s := x];
    forall t | t in timers' ensures TimerOwned(t, sessions', timers') {
      if timers'[t].s != s { assert TimerOwned(t, sessions, timers); }
    }
    forall z | z in sessions' ensures TimersLive(z, sessions', timers') {
      if z != s { assert TimersLive(z, sessions, timers); }
    }
  }

  /** What a session gives up or gets, the queues or the lost ones get or give up. */
  lemma SessionConserved(sessions: Sessions, tasks: seq<Task>, tasks': seq<Task>, exec: seq<Command>,
                         exec': seq<Command>, made: set<nat>, destroyed: multiset<nat>, lost: multiset<nat>,
                         lost': multiset<nat>, s: nat, x: Session)
    requires Conserved(sessions, tasks, exec, made, destroyed, lost) && s in sessions
    requires NativeOf(sessions[s]) + Transit(tasks) + Requested(exec) + lost
             == NativeOf(x) + Transit(tasks') + Requested(exec') + lost'
    ensures Conserved(sessions[s := x], tasks', exec', made, destroyed, lost')
  {
    var sessions' := sessions[s := x];
    HoldersOfUpdate(sessions, s, x);
    forall n: nat ensures OnePlace(n, sessions', tasks', exec', made, destroyed, lost') {
      assert OnePlace(n, sessions, tasks, exec, made, destroyed, lost);
      assert (NativeOf(sessions[s]) + Transit(tasks) + Requested(exec) + lost)[n]
             == (NativeOf(x) + Transit(tasks') + Requested(exec') + lost')[n];
    }
  }

  /** Native sessions move from the queue of the executor to the destroyed ones. */
  lemma NativesMove(sessions: Sessions, tasks: seq<Task>, tasks': seq<Task>, exec: seq<Command>, exec': seq<Command>,
                    made: set<nat>, destroyed: multiset<nat>, destroyed': multiset<nat>, lost: multiset<nat>)
    requires Conserved(sessions, tasks, exec, made, destroyed, lost)
    requires Transit(tasks') == Transit(tasks)
    requires Requested(exec') + destroyed' == Requested(exec) + destroyed
    ensures Conserved(sessions, tasks', exec', made, destroyed', lost)
  {
    forall n: nat ensures OnePlace(n, sessions, tasks', exec', made, destroyed', lost) {
      assert OnePlace(n, sessions, tasks, exec, made, destroyed, lost);
      assert (Requested(exec) + destroyed)[n] == (Requested(exec') + destroyed')[n];
    }
  }

  lemma SessionProgresses(sessions: Sessions, pending: multiset<Ref>, pending': multiset<Ref>, s: nat, x: Session)
    requires Progressing(sessions, pending)
    requires s in sessions && SameBut(pending, pending', SessionRef(s))
    requires Progress(x, pending'[SessionRef(s)])
    ensures Progressing(sessions[s := x], pending')
  {
    var sessions' := sessions[s := x];
    forall z | z in sessions' ensures Progresses(z, sessions', pending') {
      if z != s { assert Progresses(z, sessions, pending); }
    }
  }

  lemma SessionOpens(sessions: Sessions, channels: Channels, tasks: seq<Task>, openPosted: set<nat>,
                     s: nat, x: Session)
    requires OpensOnce(sessions, channels, tasks, openPosted)
    requires s in sessions && x.openedBy == sessions[s].openedBy && sessions[s].members <= x.members
    ensures OpensOnce(sessions[s := x], channels, tasks, openPosted)
  {
    var sessions' := sessions[s := x];
    forall c | c in channels ensures IsMember(c, sessions', channels) {
      assert IsMember(c, sessions, channels);
    }
    forall i: nat | i < |tasks| ensures OpensFirst(i, sessions', tasks, openPosted) {
      assert OpensFirst(i, sessions, tasks, openPosted);
    }
  }

  // ----- One channel -------------------------------------------------------------------

  lemma SameChannelsCounted(sockets: Sockets, sessions: Sessions, channels: Channels, rtc: RtcMap, c: nat, x: Channel,
                            out: multiset<Ref>, out': multiset<Ref>)
    requires SessionsCounted(sockets, sessions, channels, rtc, out)
    requires c in channels && x.session == channels[c].session && SameBut(out, out', ChannelRef(c))
    ensures SessionsCounted(sockets, sessions, channels[c := x], rtc, out')
  {
    ChannelsOfUpdate(channels, c, x);
    forall z | z in sessions ensures SessionCounted(z, sockets, sessions, channels[c := x], rtc, out') {
      assert SessionCounted(z, sockets, sessions, channels, rtc, out);
    }
  }

  lemma ChannelCounts(sockets: Sockets, sessions: Sessions, channels: Channels, rtc: RtcMap, c: nat, x: Channel,
                      out: multiset<Ref>, out': multiset<Ref>)
    requires Counted(sockets, sessions, channels, rtc, out)
    requires c in channels && x.session == channels[c].session && SameBut(out, out', ChannelRef(c))
    requires ChannelCounted(c, sessions, channels[c := x], rtc, out')
    ensures Counted(sockets, sessions, channels[c := x], rtc, out')
  {
    var channels' := channels[c := x];
    SameChannelsCounted(sockets, sessions, channels, rtc, c, x, out, out');
    forall j | j in sockets ensures SocketCounted(j, sockets, sessions, rtc, out') {
      assert SocketCounted(j, sockets, sessions, rtc, out);
    }
    forall d | d in channels' ensures ChannelCounted(d, sessions, channels', rtc, out') {
      if d != c { assert ChannelCounted(d, sessions, channels, rtc, out); }
    }
    forall r | r in out' ensures Live(sockets, sessions, channels', r) {
      if r != ChannelRef(c) { assert Live(sockets, sessions, channels, r); }
    }
    forall y | y in rtc ensures Live(sockets, sessions, channels', RtcRef(y)) {
      assert Live(sockets, sessions, channels, RtcRef(y));
    }
  }

  lemma ChannelSlots(sessions: Sessions, channels: Channels, rtc: RtcMap, c: nat, x: Channel)
    requires Slotted(sessions, channels, rtc)
    requires c in channels && x.session == channels[c].session && x.index == channels[c].index
    requires x.index == SYSTEM_INDEX ==> !x.incoming
    ensures Slotted(sessions, channels[c := x], rtc)
  {
    var channels' := channels[c := x];
    forall z | z in sessions ensures SlotsFilled(z, sessions, channels', rtc) {
      assert SlotsFilled(z, sessions, channels, rtc);
    }
    forall d | d in channels' ensures InSlot(d, sessions, channels', rtc) {
      assert InSlot(d, sessions, channels, rtc);
    }
  }

  lemma ChannelActivity(sessions: Sessions, channels: Channels, rtc: RtcMap, c: nat, x: Channel, busy: set<Ref>)
    requires Active(sessions, channels, rtc, busy)
    requires c in channels && ChannelActive(c, sessions, channels[c := x], rtc, busy)
    ensures Active(sessions, channels[c := x], rtc, busy)
  {
    var channels' := channels[c := x];
    forall z | z in sessions ensures PartsActive(z, sessions, busy) {
      assert PartsActive(z, sessions, busy);
    }
    forall d | d in channels' ensures ChannelActive(d, sessions, channels', rtc, busy) {
      if d != c { assert ChannelActive(d, sessions, channels, rtc, busy); }
    }
  }

  lemma ChannelOpens(sessions: Sessions, channels: Channels, tasks: seq<Task>, openPosted: set<nat>,
                     c: nat, x: Channel)
    requires OpensOnce(sessions, channels, tasks, openPosted)
    requires c in channels && x.session == channels[c].session && x.index == channels[c].index
    ensures OpensOnce(sessions, channels[c := x], tasks, openPosted)
  {
    var channels' := channels[c := x];
    forall d | d in channels' ensures IsMember(d, sessions, channels') {
      assert IsMember(d, sessions, channels);
    }
  }

  // ----- Owners and late pings ---------------------------------------------------------

  lemma SessionOwned(sessions: Sessions, tasks: seq<Task>, owners: map<nat, nat>, made: set<nat>, s: nat, x: Session)
    requires Owned(sessions, tasks, owners, made) && s in sessions
    requires x.native == sessions[s].native || x.native.None?
    ensures Owned(sessions[s := x], tasks, owners, made)
  {
    var sessions' := sessions[s := x];
    forall z | z in sessions' ensures OwnsNative(z, sessions', owners) {
      assert OwnsNative(z, sessions, owners);
    }
  }

  /** A session in the course of its closing, or an active one, owes nothing for its ping. */
  lemma SameLatent(sessions: Sessions, timers: Timers, late: map<nat, nat>, s: nat, x: Session, busy: set<Ref>,
                   busy': set<Ref>)
    requires Latent(sessions, timers, late, busy) && s in sessions && BusyBut(busy, busy', SessionRef(s))
    requires x.active == sessions[s].active || (sessions[s].active && SessionRef(s) in busy')
    requires SessionRef(s) in busy ==> SessionRef(s) in busy' || x.active
    ensures Latent(sessions[s := x], timers, late, busy')
  {
    forall t | t in timers ensures PingLate(t, sessions[s := x], timers, late, busy') {
      assert PingLate(t, sessions, timers, late, busy);
    }
    forall z | z in late ensures LateLives(z, sessions[s := x], timers, late) {
      assert LateLives(z, sessions, timers, late);
    }
  }

  // ----- A step on one record ----------------------------------------------------------

  /** Everything a step on one session has to show. */
  ghost predicate SessionStep(st: State, st': State, s: nat, hand': multiset<Ref>, busy': set<Ref>)
    requires s in st.sessions && s in st'.sessions
  {
    var x, y := st.sessions[s], st'.sessions[s];
    && st' == st.(sessions := st.sessions[s := y], timers := st'.timers, exec := st'.exec, lost := st'.lost,
                  ledger := st.ledger.(late := st'.ledger.late), next := st'.next)
    && st.next <= st'.next && (y.native == x.native || y.native.None?)
    && y.socket == x.socket && y.channels == x.channels && y.system == x.system && y.entry == x.entry
    && y.members == x.members
    && SessionCounted(s, st.sockets, st'.sessions, st.channels, st.rtc, QueueRefs(st.tasks, st'.exec) + hand')
    && PartsActive(s, st'.sessions, busy')
    && (SessionRef(s) !in busy' ==> (y.active <==> y.entry.Some?))
    && Progress(y, QueueRefs(st.tasks, st'.exec)[SessionRef(s)])
  }

  lemma SessionKeeps(st: State, st': State, s: nat, hand: multiset<Ref>, hand': multiset<Ref>,
                     busy: set<Ref>, busy': set<Ref>)
    requires Inv(st, hand, busy) && s in st.sessions && s in st'.sessions
    requires SessionStep(st, st', s, hand', busy')
    requires BusyBut(busy, busy', SessionRef(s))
    requires SameBut(QueueRefs(st.tasks, st.exec) + hand, QueueRefs(st.tasks, st'.exec) + hand', SessionRef(s))
    requires SameBut(QueueRefs(st.tasks, st.exec), QueueRefs(st.tasks, st'.exec), SessionRef(s))
    requires forall c :: c in st.channels && st.channels[c].session == s ==>
               ChannelActive(c, st'.sessions, st.channels, st.rtc, busy')
    requires Timed(st'.sessions, st'.timers)
    requires forall t :: t in st'.timers ==>
               (t in st.timers && st'.timers[t] == st.timers[t]) || (t < st'.next && st'.timers[t].s == s)
    requires Conserved(st'.sessions, st.tasks, st'.exec, st.made, st.destroyed, st'.lost)
    requires Usable(st'.exec, st.destroyed)
    requires OpensOnce(st'.sessions, st.channels, st.tasks, st.openPosted)
    requires Latent(st'.sessions, st'.timers, st'.ledger.late, busy')
    ensures Inv(st', hand', busy')
  {
    var y := st'.sessions[s];
    Read(st, hand, busy);
    SessionCounts(st.sockets, st.sessions, st.channels, st.rtc, s, y,
                  QueueRefs(st.tasks, st.exec) + hand, QueueRefs(st.tasks, st'.exec) + hand');
    SessionSlots(st.sessions, st.channels, st.rtc, s, y);
    SessionActivity(st.sessions, st.channels, st.rtc, s, y, busy, busy');
    SessionListed(st.sockets, st.sessions, s, y, busy, busy');
    SessionProgresses(st.sessions, QueueRefs(st.tasks, st.exec), QueueRefs(st.tasks, st'.exec), s, y);
    assert Below(s, st.next);
    SessionNames(st, st', s);
    SameBooks(st.sockets, st.sessions, st.channels, st.sockets, st'.sessions, st.channels, st.rtc, st.rtc, st.ledger,
              st.next, st'.next);
    LateBooks(st.sockets, st'.sessions, st.channels, st.rtc, st.ledger, st'.next, st'.ledger.late);
    SessionOwned(st.sessions, st.tasks, st.owners, st.made, s, y);
    Hold(st', hand', busy');
  }

  lemma SameTimers(sessions: Sessions, timers: Timers, s: nat, x: Session)
    requires Timed(sessions, timers) && s in sessions
    requires x.timeout == sessions[s].timeout && x.ping == sessions[s].ping
    ensures Timed(sessions[s := x], timers)
  {
    assert TimersLive(s, sessions, timers);
    forall t | t in timers && timers[t].s == s ensures TimerOwned(t, sessions[s := x], timers) {
      assert TimerOwned(t, sessions, timers);
    }
    SessionTimed(sessions, timers, timers, s, x);
  }

  lemma SameActivity(sessions: Sessions, channels: Channels, rtc: RtcMap, s: nat, x: Session, busy: set<Ref>)
    requires Active(sessions, channels, rtc, busy) && s in sessions
    requires x.active == sessions[s].active && (x.native == sessions[s].native || Silent(s, channels, rtc))
    ensures forall c :: c in channels && channels[c].session == s ==>
              ChannelActive(c, sessions[s := x], channels, rtc, busy)
  {
    forall c | c in channels && channels[c].session == s
      ensures ChannelActive(c, sessions[s := x], channels, rtc, busy)
    {
      assert ChannelActive(c, sessions, channels, rtc, busy);
    }
  }

  /** No channel of the session still lets messages through. */
  ghost predicate Silent(s: nat, channels: Channels, rtc: RtcMap) {
    forall c :: c in channels && channels[c].session == s ==>
      !(channels[c].active && channels[c].dcReceive && Dc(c) in rtc)
  }

  /** A step that leaves the native session and the activity of its session alone. */
  lemma SessionTimersKeeps(st: State, st': State, s: nat, hand: multiset<Ref>, hand': multiset<Ref>, busy: set<Ref>)
    requires Inv(st, hand, busy) && s in st.sessions && s in st'.sessions
    requires SessionStep(st, st', s, hand', busy) && st'.lost == st.lost && st'.exec == st.exec
    requires SameBut(hand, hand', SessionRef(s))
    requires st'.sessions[s].native == st.sessions[s].native && st'.sessions[s].active == st.sessions[s].active
    requires st'.sessions[s].openedBy == st.sessions[s].openedBy
    requires Timed(st'.sessions, st'.timers) && Latent(st'.sessions, st'.timers, st'.ledger.late, busy)
    requires forall t :: t in st'.timers ==>
               (t in st.timers && st'.timers[t] == st.timers[t]) || (t < st'.next && st'.timers[t].s == s)
    ensures Inv(st', hand', busy)
  {
    var y := st'.sessions[s];
    assert Holds(Natives, st, hand, busy) && Holds(Activity, st, hand, busy);
    SessionConserved(st.sessions, st.tasks, st.tasks, st.exec, st.exec, st.made, st.destroyed, st.lost, st.lost, s, y);
    SameActivity(st.sessions, st.channels, st.rtc, s, y, busy);
    assert Holds(Opens, st, hand, busy) && Holds(Commands, st, hand, busy);
    SessionOpens(st.sessions, st.channels, st.tasks, st.openPosted, s, y);
    SessionKeeps(st, st', s, hand, hand', busy, busy);
  }

  /** The timers do not change either. */
  lemma SessionOnlyKeeps(st: State, st': State, s: nat, hand: multiset<Ref>, hand': multiset<Ref>, busy: set<Ref>)
    requires Inv(st, hand, busy) && s in st.sessions && s in st'.sessions
    requires SessionStep(st, st', s, hand', busy) && st'.lost == st.lost && st'.exec == st.exec
    requires SameBut(hand, hand', SessionRef(s)) && st'.timers == st.timers && st'.ledger.late == st.ledger.late
    requires st'.sessions[s].native == st.sessions[s].native && st'.sessions[s].active == st.sessions[s].active
    requires st'.sessions[s].openedBy == st.sessions[s].openedBy
    requires st'.sessions[s].timeout == st.sessions[s].timeout && st'.sessions[s].ping == st.sessions[s].ping
    ensures Inv(st', hand', busy)
  {
    assert Holds(Pings, st, hand, busy) && Holds(Clocks, st, hand, busy);
    SameLatent(st.sessions, st.timers, st.ledger.late, s, st'.sessions[s], busy, busy);
    SameTimers(st.sessions, st.timers, s, st'.sessions[s]);
    SessionTimersKeeps(st, st', s, hand, hand', busy);
  }

  /** A step that leaves the native session, the executor and the timers alone. */
  lemma SessionQuietKeeps(st: State, st': State, s: nat, hand: multiset<Ref>, hand': multiset<Ref>,
                          busy: set<Ref>, busy': set<Ref>)
    requires Inv(st, hand, busy) && s in st.sessions && s in st'.sessions
    requires SessionStep(st, st', s, hand', busy') && st'.lost == st.lost && st'.exec == st.exec
    requires BusyBut(busy, busy', SessionRef(s)) && SameBut(hand, hand', SessionRef(s))
    requires st'.sessions[s].native == st.sessions[s].native && st'.sessions[s].openedBy == st.sessions[s].openedBy
    requires forall c :: c in st.channels && st.channels[c].session == s ==>
               ChannelActive(c, st'.sessions, st.channels, st.rtc, busy')
    requires st'.timers == st.timers && st'.ledger.late == st.ledger.late
    requires st'.sessions[s].timeout == st.sessions[s].timeout && st'.sessions[s].ping == st.sessions[s].ping
    requires st'.sessions[s].active == st.sessions[s].active || (st.sessions[s].active && SessionRef(s) in busy')
    requires SessionRef(s) in busy ==> SessionRef(s) in busy' || st'.sessions[s].active
    ensures Inv(st', hand', busy')
  {
    assert Holds(Natives, st, hand, busy) && Holds(Commands, st, hand, busy);
    assert Holds(Pings, st, hand, busy) && Holds(Clocks, st, hand, busy);
    SameLatent(st.sessions, st.timers, st.ledger.late, s, st'.sessions[s], busy, busy');
    SameTimers(st.sessions, st.timers, s, st'.sessions[s]);
    SessionConserved(st.sessions, st.tasks, st.tasks, st.exec, st.exec, st.made, st.destroyed, st.lost, st.lost, s,
                     st'.sessions[s]);
    assert Holds(Opens, st, hand, busy);
    SessionOpens(st.sessions, st.channels, st.tasks, st.openPosted, s, st'.sessions[s]);
    SessionKeeps(st, st', s, hand, hand', busy, busy');
  }

  /** The list of a socket changes along with the entry of one session. */
  ghost predicate EntryStep(st: State, st': State, k: nat, s: nat)
    requires k in st.sockets && s in st.sessions
  {
    && k in st'.sockets && s in st'.sessions
    && var x := st.sockets[k].(sessions := st'.sockets[k].sessions);
    var y := st.sessions[s].(entry := st'.sessions[s].entry);
    && st' == st.(sockets := st.sockets[k := x], sessions := st.sessions[s := y], next := st'.next)
    && SessionFresh(y, st'.next) && st.next <= st'.next
  }

  lemma EntryPlaced(st: State, st': State, k: nat, s: nat, hand: multiset<Ref>, busy: set<Ref>)
    requires Inv(st, hand, busy) && s in st.sessions && k in st.sockets && EntryStep(st, st', k, s)
    ensures Counted(st'.sockets, st'.sessions, st.channels, st.rtc, QueueRefs(st.tasks, st.exec) + hand)
    ensures Slotted(st'.sessions, st.channels, st.rtc) && Mapped(st'.sockets, st.socketMap, st.tasks)
    ensures Booked(st'.sockets, st'.sessions, st.channels, st.rtc, st.ledger, st'.next)
    ensures Fresh(st'.sockets, st'.sessions, st.channels, st.socketMap, st.tasks, st.timers, st.openPosted, st.made,
                  st'.next)
  {
    var y := st'.sessions[s];
    Read(st, hand, busy);
    EntryCounts(st.sockets, st.sessions, st.channels, st.rtc, k, s, st'.sockets[k], y,
                QueueRefs(st.tasks, st.exec) + hand);
    SessionSlots(st.sessions, st.channels, st.rtc, s, y);
    SocketMapped(st.sockets, st.socketMap, st.tasks, k, st'.sockets[k]);
    SameBooks(st.sockets, st.sessions, st.channels, st'.sockets, st'.sessions, st.channels, st.rtc, st.rtc, st.ledger,
              st.next, st'.next);
    SessionNames(st, st.(sessions := st'.sessions, next := st'.next), s);
    EntryNames(st, st', k);
  }

  lemma EntryRecorded(st: State, st': State, k: nat, s: nat, hand: multiset<Ref>, busy: set<Ref>)
    requires Inv(st, hand, busy) && s in st.sessions && k in st.sockets && EntryStep(st, st', k, s)
    ensures Timed(st'.sessions, st.timers)
    ensures Conserved(st'.sessions, st.tasks, st.exec, st.made, st.destroyed, st.lost)
    ensures Progressing(st'.sessions, QueueRefs(st.tasks, st.exec))
    ensures OpensOnce(st'.sessions, st.channels, st.tasks, st.openPosted)
    ensures Owned(st'.sessions, st.tasks, st.owners, st.made)
  {
    var y := st'.sessions[s];
    Read(st, hand, busy);
    SessionOwned(st.sessions, st.tasks, st.owners, st.made, s, y);
    assert Progresses(s, st.sessions, QueueRefs(st.tasks, st.exec));
    SameTimers(st.sessions, st.timers, s, y);
    SessionConserved(st.sessions, st.tasks, st.tasks, st.exec, st.exec, st.made, st.destroyed, st.lost, st.lost, s, y);
    SessionProgresses(st.sessions, QueueRefs(st.tasks, st.exec), QueueRefs(st.tasks, st.exec), s, y);
    SessionOpens(st.sessions, st.channels, st.tasks, st.openPosted, s, y);
  }

  lemma EntryKeeps(st: State, st': State, k: nat, s: nat, hand: multiset<Ref>, busy: set<Ref>, busy': set<Ref>)
    requires Inv(st, hand, busy) && s in st.sessions && k in st.sockets && EntryStep(st, st', k, s)
    requires forall r :: SessionRef(s) != r ==> (r in busy <==> r in busy')
    requires SessionRef(s) !in busy' ==> PartsActive(s, st.sessions, busy')
    requires forall c :: c in st.channels && st.channels[c].session == s ==>
               ChannelActive(c, st.sessions, st.channels, st.rtc, busy')
    requires Listed(st'.sockets, st'.sessions, busy')
    requires SessionRef(s) in busy ==> SessionRef(s) in busy' || st.sessions[s].active
    ensures Inv(st', hand, busy')
  {
    Read(st, hand, busy);
    SameLatent(st.sessions, st.timers, st.ledger.late, s, st'.sessions[s], busy, busy');
    assert PartsActive(s, st.sessions, busy);
    EntryPlaced(st, st', k, s, hand, busy);
    EntryRecorded(st, st', k, s, hand, busy);
    SessionActivity(st.sessions, st.channels, st.rtc, s, st'.sessions[s], busy, busy');
    Hold(st', hand, busy');
  }

  lemma EntryNames(st: State, st': State, k: nat)
    requires k in st.sockets && k in st'.sockets && st'.sockets.Keys == st.sockets.Keys
    requires Fresh(st.sockets, st'.sessions, st.channels, st.socketMap, st.tasks, st.timers, st.openPosted, st.made,
                   st'.next)
    ensures Fresh(st'.sockets, st'.sessions, st.channels, st.socketMap, st.tasks, st.timers, st.openPosted, st.made,
                  st'.next)
  {
    forall n | n in st'.sockets ensures Below(n, st'.next) { assert n in st.sockets; }
  }

  lemma EntryCounts(sockets: Sockets, sessions: Sessions, channels: Channels, rtc: RtcMap, k: nat, s: nat,
                    x: Socket, y: Session, out: multiset<Ref>)
    requires Counted(sockets, sessions, channels, rtc, out) && k in sockets && s in sessions
    requires x == sockets[k].(sessions := x.sessions) && y == sessions[s].(entry := y.entry)
    ensures Counted(sockets[k := x], sessions[s := y], channels, rtc, out)
  {
    assert SessionCounted(s, sockets, sessions, channels, rtc, out);
    SessionCounts(sockets, sessions, channels, rtc, s, y, out, out);
    assert SocketCounted(k, sockets, sessions[s := y], rtc, out);
    SocketCounts(sockets, sessions[s := y], channels, rtc, k, x, out, out);
  }

  /** Only the pointers of a session to its timers change, along with the timers. */
  lemma TimersChange(st: State, st': State, s: nat, hand: multiset<Ref>, busy: set<Ref>)
    requires Inv(st, hand, busy) && s in st.sessions && s in st'.sessions && st.next <= st'.next
    requires
      var y := st.sessions[s].(timeout := st'.sessions[s].timeout, ping := st'.sessions[s].ping);
      && st' == st.(sessions := st.sessions[s := y], timers := st'.timers,
                    ledger := st.ledger.(late := st'.ledger.late), next := st'.next)
      && (y.ping.Some? ==> y.allOpened)
    requires Timed(st'.sessions, st'.timers) && Latent(st'.sessions, st'.timers, st'.ledger.late, busy)
    requires forall t :: t in st'.timers ==>
               (t in st.timers && st'.timers[t] == st.timers[t]) || (t < st'.next && st'.timers[t].s == s)
    ensures Inv(st', hand, busy)
  {
    Read(st, hand, busy);
    assert SessionCounted(s, st.sockets, st.sessions, st.channels, st.rtc, QueueRefs(st.tasks, st.exec) + hand);
    assert PartsActive(s, st.sessions, busy) && IsListed(s, st.sockets, st.sessions, busy);
    assert Progresses(s, st.sessions, QueueRefs(st.tasks, st.exec));
    SessionTimersKeeps(st, st', s, hand, hand, busy);
  }

  /** A timeout comes or goes. */
  lemma TimeoutLatent(sessions: Sessions, timers: Timers, timers': Timers, late: map<nat, nat>, s: nat, x: Session,
                      busy: set<Ref>)
    requires Latent(sessions, timers, late, busy) && s in sessions && x.active == sessions[s].active
    requires forall t :: t in timers && timers[t].Ping? ==> t in timers' && timers'[t] == timers[t]
    requires forall t :: t in timers' && timers'[t].Ping? ==> t in timers && timers'[t] == timers[t]
    ensures Latent(sessions[s := x], timers', late, busy)
  {
    forall t | t in timers' ensures PingLate(t, sessions[s := x], timers', late, busy) {
      if timers'[t].Ping? { assert PingLate(t, sessions, timers, late, busy); }
    }
    forall z | z in late ensures LateLives(z, sessions[s := x], timers', late) {
      assert LateLives(z, sessions, timers, late);
    }
  }

  lemma SessionNames(st: State, st': State, s: nat)
    requires s in st.sessions && s in st'.sessions
    requires Fresh(st.sockets, st.sessions, st.channels, st.socketMap, st.tasks, st.timers, st.openPosted, st.made,
                   st.next)
    requires st'.sessions == st.sessions[s := st'.sessions[s]] && st.next <= st'.next
    requires SessionFresh(st'.sessions[s], st'.next)
             || (st'.sessions[s].members == st.sessions[s].members && st'.sessions[s].entry == st.sessions[s].entry)
    requires forall t :: t in st'.timers ==>
               (t in st.timers && st'.timers[t] == st.timers[t]) || (t < st'.next && st'.timers[t].s < st'.next)
    ensures Fresh(st.sockets, st'.sessions, st.channels, st.socketMap, st.tasks, st'.timers, st.openPosted, st.made,
                  st'.next)
  {
    forall n: nat
      | n in st.sockets || n in st'.sessions || n in st.channels || n in st.socketMap || n in st'.timers
        || n in st.openPosted || n in st.made
      ensures Below(n, st'.next)
    {
      if n in st.timers || n !in st'.timers { assert Below(n, st.next); }
    }
    forall z | z in st'.sessions ensures SessionFresh(st'.sessions[z], st'.next) {
      assert SessionFresh(st.sessions[z], st.next);
    }
  }

  /** Everything a step on one channel has to show. */
  ghost predicate ChannelStep(st: State, st': State, c: nat, hand': multiset<Ref>, busy: set<Ref>)
    requires c in st.channels && c in st'.channels
  {
    var x, y := st.channels[c], st'.channels[c];
    && st' == st.(channels := st.channels[c := y], exec := st'.exec)
    && y.session == x.session && y.index == x.index && (y.index == SYSTEM_INDEX ==> !y.incoming)
    && ChannelCounted(c, st.sessions, st'.channels, st.rtc, QueueRefs(st.tasks, st'.exec) + hand')
    && ChannelActive(c, st.sessions, st'.channels, st.rtc, busy)
    && (y.active == x.active || x.index == SYSTEM_INDEX || Dc(c) in st.rtc)
  }

  lemma ChannelKeeps(st: State, st': State, c: nat, hand: multiset<Ref>, hand': multiset<Ref>, busy: set<Ref>)
    requires Inv(st, hand, busy) && c in st.channels && c in st'.channels
    requires ChannelStep(st, st', c, hand', busy)
    requires SameBut(QueueRefs(st.tasks, st.exec) + hand, QueueRefs(st.tasks, st'.exec) + hand', ChannelRef(c))
    requires SameBut(QueueRefs(st.tasks, st.exec), QueueRefs(st.tasks, st'.exec), ChannelRef(c))
    requires Conserved(st.sessions, st.tasks, st'.exec, st.made, st.destroyed, st.lost)
    requires Usable(st'.exec, st.destroyed)
    ensures Inv(st', hand', busy)
  {
    var y := st'.channels[c];
    Read(st, hand, busy);
    ChannelCounts(st.sockets, st.sessions, st.channels, st.rtc, c, y,
                  QueueRefs(st.tasks, st.exec) + hand, QueueRefs(st.tasks, st'.exec) + hand');
    ChannelSlots(st.sessions, st.channels, st.rtc, c, y);
    ChannelActivity(st.sessions, st.channels, st.rtc, c, y, busy);
    ChannelOpens(st.sessions, st.channels, st.tasks, st.openPosted, c, y);
    forall s | s in st.sessions ensures Progresses(s, st.sessions, QueueRefs(st.tasks, st'.exec)) {
      assert Progresses(s, st.sessions, QueueRefs(st.tasks, st.exec));
    }
    SameBooks(st.sockets, st.sessions, st.channels, st.sockets, st.sessions, st'.channels, st.rtc, st.rtc, st.ledger,
              st.next, st.next);
    Hold(st', hand', busy);
  }
}
