/** What a task leaves alone: a task of one session touches no other session, nothing that belongs
    to another, and of the sockets only its own place in its own. */
module Isolation {
  import opened Wrappers
  import opened Model
  import Frames
  import opened Lifecycle
  import opened Invariants
  import opened Counting
  import opened Updates
  import opened Unref
  import opened Dwindling
  import opened Closing
  import opened Opening
  import opened Handshaking
  import opened Taking
  import opened Connecting
  import opened Steps
  import opened Theorems

  // ----- What belongs to the others ----------------------------------------------------

  function ForeignChannels(channels: Channels, s: nat): Channels {
    map c | c in channels && channels[c].session != s :: channels[c]
  }

  function ForeignTimers(timers: Timers, s: nat): Timers {
    map t | t in timers && timers[t].s != s :: timers[t]
  }

  function ForeignOwners(owners: map<nat, nat>, s: nat): map<nat, nat> {
    map n | n in owners && owners[n] != s :: owners[n]
  }

  function ForeignNodes(nodes: seq<Node>, s: nat): seq<Node> {
    if nodes == [] then []
    else (if nodes[0].session == s then [] else [nodes[0]]) + ForeignNodes(nodes[1..], s)
  }

  /** Of the sockets, only k may change: its count, the node of s, or that it is released. */
  ghost predicate SocketsAlone(st: State, st': State, s: nat, k: nat) {
    && st'.sockets - {k} == st.sockets - {k}
    && (k in st'.sockets ==>
          && k in st.sockets
          && st'.sockets[k] == st.sockets[k].(ref := st'.sockets[k].ref, sessions := st'.sockets[k].sessions)
          && ForeignNodes(st'.sockets[k].sessions, s) == ForeignNodes(st.sockets[k].sessions, s))
    && (st'.socketMap == st.socketMap
        || (k in st.sockets && k !in st'.sockets && st'.socketMap == st.socketMap - {st.sockets[k].native}))
  }

  /** The outside world and the queues go on, and of the rtc objects only those of s are new. */
  ghost predicate OutsideAlone(st: State, st': State, s: nat) {
    && st'.tasks == st.tasks && st'.listening == st.listening && st'.openPosted == st.openPosted
    && st'.made == st.made && st'.destroyed == st.destroyed && st.next <= st'.next
    && (forall x {:trigger x in st'.rtc} :: x in st.rtc ==> x in st'.rtc && st'.rtc[x] == st.rtc[x])
    && (forall x {:trigger x in st.rtc} :: x in st'.rtc && x !in st.rtc ==>
          x == Ws(s) || x == Pc(s) || (x.Dc? && x.c >= st.next))
    && st.exec <= st'.exec
    && (forall i {:trigger st'.exec[i]} :: |st.exec| <= i < |st'.exec| && st'.exec[i].Create? ==>
          st'.exec[i] == Command.Create(s))
  }

  /** Everything but the session s, its channels, its timers, its native session and its place in
      the socket k is as it was. */
  ghost predicate Alone(st: State, st': State, s: nat, k: nat) {
    && st'.sessions - {s} == st.sessions - {s}
    && ForeignChannels(st'.channels, s) == ForeignChannels(st.channels, s)
    && ForeignTimers(st'.timers, s) == ForeignTimers(st.timers, s)
    && ForeignOwners(st'.owners, s) == ForeignOwners(st.owners, s)
    && SocketsAlone(st, st', s, k)
    && OutsideAlone(st, st', s)
  }

  lemma OutsideOn(st: State, st1: State, st2: State, s: nat)
    requires OutsideAlone(st, st1, s) && OutsideAlone(st1, st2, s)
    ensures OutsideAlone(st, st2, s)
  {
    forall i | |st.exec| <= i < |st2.exec| && st2.exec[i].Create? ensures st2.exec[i] == Command.Create(s) {
      if i < |st1.exec| { assert st2.exec[i] == st1.exec[i]; }
    }
  }

  lemma AloneOn(st: State, st1: State, st2: State, s: nat, k: nat)
    requires Alone(st, st1, s, k) && Alone(st1, st2, s, k)
    ensures Alone(st, st2, s, k)
  {
    OutsideOn(st, st1, st2, s);
    if k !in st1.sockets { assert st2.sockets == st2.sockets - {k}; }
  }

  lemma OutsideSame(st: State, st': State, s: nat)
    requires st'.tasks == st.tasks && st'.listening == st.listening && st'.openPosted == st.openPosted
    requires st'.made == st.made && st'.destroyed == st.destroyed && st.next <= st'.next && st'.rtc == st.rtc
    requires st'.exec == st.exec
    ensures OutsideAlone(st, st', s)
  {
  }

  /** A change of the session, its channels and its timers only. */
  lemma OwnOnly(st: State, sessions': Sessions, channels': Channels, timers': Timers, ledger': Ledger, next': nat,
                fault': bool, s: nat, k: nat)
    requires sessions' - {s} == st.sessions - {s} && st.next <= next'
    requires ForeignChannels(channels', s) == ForeignChannels(st.channels, s)
    requires ForeignTimers(timers', s) == ForeignTimers(st.timers, s)
    ensures Alone(st, st.(sessions := sessions', channels := channels', timers := timers', ledger := ledger',
                          next := next', fault := fault'), s, k)
  {
    var st' := st.(sessions := sessions', channels := channels', timers := timers', ledger := ledger', next := next',
                   fault := fault');
    OutsideSame(st, st', s);
  }

  lemma SessionOnly(st: State, y: Session, fault': bool, s: nat, k: nat)
    ensures Alone(st, st.(sessions := st.sessions[s := y], fault := fault'), s, k)
  {
    assert st.sessions[s := y] - {s} == st.sessions - {s};
    OwnOnly(st, st.sessions[s := y], st.channels, st.timers, st.ledger, st.next, fault', s, k);
  }

  lemma FaultOnly(st: State, s: nat, k: nat)
    ensures Alone(st, Fail(st), s, k) && Alone(st, st, s, k)
  {
    OwnOnly(st, st.sessions, st.channels, st.timers, st.ledger, st.next, true, s, k);
    OwnOnly(st, st.sessions, st.channels, st.timers, st.ledger, st.next, st.fault, s, k);
  }

  lemma ChannelUpdated(channels: Channels, c: nat, x: Channel, s: nat)
    requires x.session == s && (c in channels ==> channels[c].session == s)
    ensures ForeignChannels(channels[c := x], s) == ForeignChannels(channels, s)
    ensures ForeignChannels(channels - {c}, s) == ForeignChannels(channels, s)
  {
  }

  lemma ChannelOnly(st: State, c: nat, x: Channel, s: nat, k: nat)
    requires x.session == s && (c in st.channels ==> st.channels[c].session == s)
    ensures Alone(st, SetChannel(st, c, x), s, k)
  {
    ChannelUpdated(st.channels, c, x, s);
    OwnOnly(st, st.sessions, st.channels[c := x], st.timers, st.ledger, st.next, st.fault, s, k);
  }

  lemma TimerUpdated(timers: Timers, t: nat, timer: Timer, s: nat)
    requires timer.s == s && (t in timers ==> timers[t].s == s)
    ensures ForeignTimers(timers[t := timer], s) == ForeignTimers(timers, s)
    ensures ForeignTimers(timers - {t}, s) == ForeignTimers(timers, s)
  {
  }

  // ----- Dropping references -----------------------------------------------------------

  lemma UnrefSocketAlone(st: State, s: nat, k: nat)
    ensures Alone(st, UnrefSocket(st, k), s, k)
  {
    FaultOnly(st, s, k);
    if k in st.sockets {
      var x := st.sockets[k];
      if x.ref > 1 { SocketOnly(st, x.(ref := x.ref - 1), s, k); } else { SocketLeaves(st, s, k); }
    }
  }

  lemma SocketOnly(st: State, x: Socket, s: nat, k: nat)
    requires k in st.sockets && x == st.sockets[k].(ref := x.ref, sessions := x.sessions)
    requires ForeignNodes(x.sessions, s) == ForeignNodes(st.sockets[k].sessions, s)
    ensures Alone(st, SetSocket(st, k, x), s, k)
  {
    assert st.sockets[k := x] - {k} == st.sockets - {k};
    OutsideSame(st, SetSocket(st, k, x), s);
  }

  lemma SocketLeaves(st: State, s: nat, k: nat)
    requires k in st.sockets
    ensures Alone(st, ReleaseSocket(st, k), s, k)
  {
    assert st.sockets - {k} - {k} == st.sockets - {k};
    OutsideSame(st, ReleaseSocket(st, k), s);
  }

  lemma DestroyNativeAlone(st: State, s: nat, k: nat)
    requires s in st.sessions
    ensures Alone(st, DestroyNative(st, s), s, k)
    ensures s in DestroyNative(st, s).sessions && DestroyNative(st, s).sessions[s] == st.sessions[s].(native := None)
  {
    var x := st.sessions[s];
    FaultOnly(st, s, k);
    if x.native.Some? {
      if ExecutorUp(st) {
        DestroyQueued(st, s);
        Submits(st, st.exec + [Destroy(x.native.value)], st.lost, x.(native := None), s, k);
      } else {
        DestroyRefused(st, s);
        Submits(st, st.exec, st.lost + multiset{x.native.value}, x.(native := None), s, k);
      }
    }
  }

  /** A command of the session is submitted, or lost. */
  lemma Submits(st: State, exec': seq<Command>, lost': multiset<nat>, y: Session, s: nat, k: nat)
    requires st.exec <= exec' && forall i {:trigger exec'[i]} :: |st.exec| <= i < |exec'| && exec'[i].Create? ==>
               exec'[i] == Command.Create(s)
    ensures Alone(st, st.(exec := exec', lost := lost', sessions := st.sessions[s := y]), s, k)
  {
    assert st.sessions[s := y] - {s} == st.sessions - {s};
  }

  lemma UnscheduleTimeoutAlone(st: State, s: nat, k: nat)
    requires s in st.sessions
    requires st.sessions[s].timeout.Some? && st.sessions[s].timeout.value in st.timers ==>
               st.timers[st.sessions[s].timeout.value].s == s
    ensures Alone(st, UnscheduleTimeout(st, s), s, k)
  {
    var x := st.sessions[s];
    FaultOnly(st, s, k);
    if x.timeout.Some? {
      TimerUpdated(st.timers, x.timeout.value, Timeout(s), s);
      assert st.sessions[s := x.(timeout := None)] - {s} == st.sessions - {s};
      OwnOnly(st, st.sessions[s := x.(timeout := None)], st.channels, st.timers - {x.timeout.value}, st.ledger,
              st.next, st.fault, s, k);
    }
  }

  /** The timers that the session points to are its own. */
  predicate OwnTimers(st: State, s: nat) {
    s in st.sessions ==>
      && (st.sessions[s].timeout.Some? && st.sessions[s].timeout.value in st.timers ==>
            st.timers[st.sessions[s].timeout.value].s == s)
      && (st.sessions[s].ping.Some? && st.sessions[s].ping.value in st.timers ==>
            st.timers[st.sessions[s].ping.value].s == s)
  }

  lemma TimersOwn(st: State, s: nat, hand: multiset<Ref>, busy: set<Ref>)
    requires Inv(st, hand, busy)
    ensures OwnTimers(st, s)
  {
    if s in st.sessions { SessionFacts(st, s, hand, busy); }
  }

  lemma UnrefSessionAlone(st: State, s: nat, k: nat)
    requires OwnTimers(st, s) && (s in st.sessions ==> st.sessions[s].socket == k)
    ensures Alone(st, UnrefSession(st, s), s, k)
  {
    FaultOnly(st, s, k);
    if s in st.sessions {
      if st.sessions[s].ref > 1 {
        SessionOnly(st, st.sessions[s].(ref := st.sessions[s].ref - 1), st.fault, s, k);
      } else {
        ReleaseSessionAlone(st, s, k);
      }
    }
  }

  lemma ReleaseSessionAlone(st: State, s: nat, k: nat)
    requires OwnTimers(st, s) && s in st.sessions && st.sessions[s].socket == k
    ensures Alone(st, ReleaseSession(st, s), s, k)
  {
    var st1 := DestroyNative(st, s);
    DestroyNativeAlone(st, s, k);
    DestroyNativeFrame(st, s);
    var st2 := UnscheduleTimeout(st1, s);
    UnscheduleTimeoutAlone(st1, s, k);
    AloneOn(st, st1, st2, s, k);
    var st3 := st2.(sessions := st2.sessions - {s}, ledger := Released(st2.ledger, SessionRef(s)));
    assert st3.sessions - {s} == st2.sessions - {s};
    OwnOnly(st2, st3.sessions, st2.channels, st2.timers, st3.ledger, st2.next, st2.fault, s, k);
    AloneOn(st, st2, st3, s, k);
    UnrefSocketAlone(st3, s, k);
    AloneOn(st, st3, UnrefSocket(st3, k), s, k);
  }

  lemma UnrefChannelAlone(st: State, c: nat, s: nat, k: nat)
    requires c in st.channels ==> st.channels[c].session == s
    requires OwnTimers(st, s) && (s in st.sessions ==> st.sessions[s].socket == k)
    ensures Alone(st, UnrefChannel(st, c), s, k)
  {
    FaultOnly(st, s, k);
    if c in st.channels {
      var x := st.channels[c];
      if x.ref > 1 {
        ChannelOnly(st, c, x.(ref := x.ref - 1), s, k);
      } else {
        var st1 := st.(channels := st.channels - {c}, ledger := Released(st.ledger, ChannelRef(c)));
        ChannelUpdated(st.channels, c, x, s);
        OwnOnly(st, st.sessions, st1.channels, st.timers, st1.ledger, st.next, st.fault, s, k);
        UnrefSessionAlone(st1, s, k);
        AloneOn(st, st1, UnrefSession(st1, s), s, k);
      }
    }
  }

  lemma ChannelCloseAlone(st: State, c: nat, s: nat, k: nat)
    requires c in st.channels ==> st.channels[c].session == s
    requires OwnTimers(st, s) && (s in st.sessions ==> st.sessions[s].socket == k)
    ensures Alone(st, ChannelClose(st, c), s, k)
  {
    FaultOnly(st, s, k);
    if c in st.channels && st.channels[c].active {
      var x := st.channels[c].(active := false, dcActive := false);
      var st1 := SetChannel(st, c, x);
      ChannelOnly(st, c, x, s, k);
      UnrefChannelAlone(st1, c, s, k);
      AloneOn(st, st1, UnrefChannel(st1, c), s, k);
    }
  }

  // ----- Closing -----------------------------------------------------------------------

  lemma {:induction false} ForeignRemoved(nodes: seq<Node>, e: nat, s: nat)
    ensures ForeignNodes(RemoveNode(nodes, Node(e, s)), s) == ForeignNodes(nodes, s)
  {
    if nodes != [] && nodes[0] != Node(e, s) {
      var rest := RemoveNode(nodes[1..], Node(e, s));
      ForeignRemoved(nodes[1..], e, s);
      assert RemoveNode(nodes, Node(e, s)) == [nodes[0]] + rest;
      assert ([nodes[0]] + rest)[1..] == rest;
    }
  }

  lemma {:induction false} ForeignAdded(nodes: seq<Node>, e: nat, s: nat)
    ensures ForeignNodes(nodes + [Node(e, s)], s) == ForeignNodes(nodes, s)
  {
    if nodes == [] {
      assert (nodes + [Node(e, s)])[1..] == [];
    } else {
      ForeignAdded(nodes[1..], e, s);
      assert (nodes + [Node(e, s)])[1..] == nodes[1..] + [Node(e, s)];
    }
  }

  lemma RemoveSessionAlone(st: State, s: nat, k: nat)
    requires s in st.sessions && st.sessions[s].socket == k
    ensures Alone(st, RemoveSession(st, s), s, k)
  {
    var x := st.sessions[s];
    FaultOnly(st, s, k);
    if x.entry.Some? && k in st.sockets {
      var socket := st.sockets[k].(sessions := RemoveNode(st.sockets[k].sessions, Node(x.entry.value, s)));
      var st1 := SetSocket(st, k, socket);
      ForeignRemoved(st.sockets[k].sessions, x.entry.value, s);
      SocketOnly(st, socket, s, k);
      SessionOnly(st1, x.(entry := None), st.fault, s, k);
      AloneOn(st, st1, RemoveSession(st, s), s, k);
    }
  }

  lemma ClosePartsAlone(st: State, s: nat, k: nat)
    requires s in st.sessions && st.sessions[s].socket == k
    ensures Alone(st, CloseParts(st, s), s, k)
  {
    var y := st.sessions[s].(wsActive := false, pcActive := false);
    var st1 := SetSession(st, s, y);
    SessionOnly(st, y, st.fault, s, k);
    var st2 := DestroyNative(st1, s);
    DestroyNativeAlone(st1, s, k);
    AloneOn(st, st1, st2, s, k);
    RemoveSessionAlone(st2, s, k);
    AloneOn(st, st2, RemoveSession(st2, s), s, k);
  }

  lemma DeactivateAlone(st: State, s: nat, k: nat)
    requires s in st.sessions && OwnTimers(st, s)
    ensures Alone(st, Deactivate(st, s), s, k)
  {
    var y := st.sessions[s].(active := false);
    var st1 := SetSession(st, s, y);
    SessionOnly(st, y, st.fault, s, k);
    if y.ping.Some? {
      TimerUpdated(st.timers, y.ping.value, Ping(s), s);
      assert st1.sessions[s := y.(ping := None)] - {s} == st1.sessions - {s};
      OwnOnly(st1, st1.sessions[s := y.(ping := None)], st.channels, st.timers - {y.ping.value}, st.ledger, st.next,
              st.fault, s, k);
      AloneOn(st, st1, Deactivate(st, s), s, k);
    }
  }

  lemma {:induction false} CloseSlotsAlone(st: State, s: nat, k: nat, j: nat, hand: multiset<Ref>, busy: set<Ref>)
    requires Inv(st, hand, busy) && s in st.sessions && SessionRef(s) in hand && st.sessions[s].socket == k
    requires j <= |st.sessions[s].channels|
    ensures Alone(st, CloseSlots(st, st.sessions[s].channels[..j]), s, k)
  {
    var slots := st.sessions[s].channels;
    FaultOnly(st, s, k);
    if j > 0 {
      CloseSlotsAlone(st, s, k, j - 1, hand, busy);
      CloseSlotsKeeps(st, s, j - 1, hand, busy);
      var st1 := CloseSlots(st, slots[..j - 1]);
      assert slots[..j][..j - 1] == slots[..j - 1];
      assert CloseSlots(st, slots[..j]) == CloseSlot(st1, slots[j - 1]);
      SlotAlone(st1, s, k, j - 1, hand, busy);
      AloneOn(st, st1, CloseSlots(st, slots[..j]), s, k);
    }
  }

  lemma SlotAlone(st: State, s: nat, k: nat, i: nat, hand: multiset<Ref>, busy: set<Ref>)
    requires Inv(st, hand, busy) && s in st.sessions && st.sessions[s].socket == k && i < |st.sessions[s].channels|
    ensures Alone(st, CloseSlot(st, st.sessions[s].channels[i]), s, k)
  {
    FaultOnly(st, s, k);
    if st.sessions[s].channels[i].Some? {
      SlotFacts(st, s, i, hand, busy);
      TimersOwn(st, s, hand, busy);
      ChannelCloseAlone(st, st.sessions[s].channels[i].value, s, k);
    }
  }

  lemma CloseSystemAlone(st: State, s: nat, k: nat, hand: multiset<Ref>, busy: set<Ref>)
    requires Inv(st, hand, busy) && s in st.sessions && st.sessions[s].socket == k
    ensures Alone(st, CloseSlot(st, st.sessions[s].system), s, k)
  {
    FaultOnly(st, s, k);
    if st.sessions[s].system.Some? {
      assert Holds(Slots, st, hand, busy);
      assert SlotsFilled(s, st.sessions, st.channels, st.rtc);
      TimersOwn(st, s, hand, busy);
      ChannelCloseAlone(st, st.sessions[s].system.value, s, k);
    }
  }

  lemma CloseChannelsAlone(st: State, s: nat, k: nat, hand: multiset<Ref>, busy: set<Ref>)
    requires Inv(st, hand, busy) && s in st.sessions && st.sessions[s].active && st.sessions[s].socket == k
    ensures
      var x := st.sessions[s];
      Alone(st, CloseSlot(CloseSlots(Deactivate(st, s), x.channels), x.system), s, k)
  {
    var x, st1 := st.sessions[s], Deactivate(st, s);
    var hand', busy' := hand + multiset{SessionRef(s)}, busy + {SessionRef(s)};
    TimersOwn(st, s, hand, busy);
    DeactivateKeeps(st, s, hand, busy);
    DeactivateFrame(st, s);
    DeactivateAlone(st, s, k);
    SlotsClosed(st, s, hand, busy);
    assert x.channels[..|x.channels|] == x.channels;
    CloseSlotsAlone(st1, s, k, |x.channels|, hand', busy');
    var st2 := CloseSlots(st1, x.channels);
    AloneOn(st, st1, st2, s, k);
    CloseSystemAlone(st2, s, k, hand', busy');
    AloneOn(st, st2, CloseSlot(st2, x.system), s, k);
  }

  lemma SessionCloseAlone(st: State, s: nat, k: nat, hand: multiset<Ref>, busy: set<Ref>)
    requires Inv(st, hand, busy) && s in st.sessions && st.sessions[s].socket == k && !StaleIn(st, s)
    ensures Alone(st, SessionClose(st, s), s, k)
  {
    FaultOnly(st, s, k);
    if st.sessions[s].active {
      var st1 := CloseSlot(CloseSlots(Deactivate(st, s), st.sessions[s].channels), st.sessions[s].system);
      var hand', busy' := hand + multiset{SessionRef(s)}, busy + {SessionRef(s)};
      CloseChannelsAlone(st, s, k, hand, busy);
      CloseChannelsKeeps(st, s, hand, busy);
      var st2 := CloseParts(st1, s);
      ClosePartsAlone(st1, s, k);
      ClosePartsKeeps(st1, s, hand', busy');
      AloneOn(st, st1, st2, s, k);
      TimersOwn(st2, s, hand', busy' - {SessionRef(s)});
      ClosePartsSocket(st1, s);
      UnrefSessionAlone(st2, s, k);
      AloneOn(st, st2, UnrefSession(st2, s), s, k);
    }
  }

  lemma ClosePartsSocket(st: State, s: nat)
    requires s in st.sessions
    ensures s in CloseParts(st, s).sessions && CloseParts(st, s).sessions[s].socket == st.sessions[s].socket
  {
    var st1 := SetSession(st, s, st.sessions[s].(wsActive := false, pcActive := false));
    DestroyNativeFrame(st1, s);
    var st2 := DestroyNative(st1, s);
    if st2.sessions[s].entry.Some? && st2.sessions[s].socket in st2.sockets {
      assert RemoveSession(st2, s).sessions == st2.sessions[s := st2.sessions[s].(entry := None)];
    } else {
      assert RemoveSession(st2, s).sessions == st2.sessions;
    }
  }

  // ----- Opening -----------------------------------------------------------------------

  lemma AcquireSessionAlone(st: State, k: nat, hand: multiset<Ref>, busy: set<Ref>)
    requires Inv(st, hand, busy) && k in st.sockets
    ensures Alone(st, AcquireSession(st, k), st.next, k)
  {
    Unused(st, st.next, hand, busy);
    Unused(st, st.next + 1, hand, busy);
    UnusedAcquired(st, k);
  }

  lemma UnusedAcquired(st: State, k: nat)
    requires k in st.sockets && st.next !in st.sessions && st.next + 1 !in st.timers
    requires Ws(st.next) !in st.rtc && Pc(st.next) !in st.rtc
    ensures Alone(st, AcquireSession(st, k), st.next, k)
  {
    var s, st' := st.next, AcquireSession(st, k);
    TimerUpdated(st.timers, s + 1, Timeout(s), s);
    NewAlone(st, st', s);
    RefAlone(st, st', s, k);
    assert st.sessions[s := st'.sessions[s]] - {s} == st.sessions - {s};
  }

  lemma RefAlone(st: State, st': State, s: nat, k: nat)
    requires k in st.sockets && st'.socketMap == st.socketMap
    requires st'.sockets == st.sockets[k := st.sockets[k].(ref := st.sockets[k].ref + 1)]
    ensures SocketsAlone(st, st', s, k)
  {
    SocketOnly(st, st.sockets[k].(ref := st.sockets[k].ref + 1), s, k);
  }

  /** Of the outside world, only the WS and the PC of the session are new. */
  lemma NewAlone(st: State, st': State, s: nat)
    requires st'.tasks == st.tasks && st'.listening == st.listening && st'.openPosted == st.openPosted
    requires st'.made == st.made && st'.destroyed == st.destroyed && st.next <= st'.next && st'.exec == st.exec
    requires Ws(s) !in st.rtc && Pc(s) !in st.rtc && st'.rtc == st.rtc[Ws(s) := true][Pc(s) := true]
    ensures OutsideAlone(st, st', s)
  {
  }

  lemma CreateSessionAlone(st: State, k: nat, o: Outcome)
    requires Invariant(st) && k in st.sockets && st.sockets[k].wssActive
    ensures Alone(st, CreateSession(st, k, o), st.next, k)
  {
    var s, none: set<Ref> := st.next, {};
    FaultOnly(st, s, k);
    if o.acquire && o.timer {
      var st1 := AcquireSession(st, k);
      AcquireSessionAlone(st, k, multiset{}, none);
      AcquireSessionKeeps(st, k, multiset{}, none);
      if o.push {
        var e, list := st1.next, st1.sockets[k].sessions;
        NodeAlone(st1, s, k);
        AloneOn(st, st1, CreateSession(st, k, o), s, k);
      } else {
        SessionCloseAlone(st1, s, k, multiset{}, none + {SessionRef(s)});
        AloneOn(st, st1, SessionClose(st1, s), s, k);
      }
    }
  }

  lemma NodeAlone(st: State, s: nat, k: nat)
    requires s in st.sessions && k in st.sockets
    ensures
      var e, socket := st.next, st.sockets[k];
      Alone(st, SetSession(SetSocket(st.(next := e + 1), k, socket.(sessions := socket.sessions + [Node(e, s)])), s,
                           st.sessions[s].(entry := Some(e))), s, k)
  {
    var e, socket := st.next, st.sockets[k].(sessions := st.sockets[k].sessions + [Node(st.next, s)]);
    var st1 := SetSocket(st, k, socket);
    ForeignAdded(st.sockets[k].sessions, e, s);
    SocketOnly(st, socket, s, k);
    var sessions' := st1.sessions[s := st.sessions[s].(entry := Some(e))];
    assert sessions' - {s} == st1.sessions - {s};
    OwnOnly(st1, sessions', st1.channels, st1.timers, st1.ledger, e + 1, st1.fault, s, k);
    AloneOn(st, st1, st1.(sessions := sessions', next := e + 1), s, k);
  }

  /** A channel is added to the session. */
  lemma AddsAlone(st: State, st': State, s: nat, index: nat, y: Session, k: nat, hand: multiset<Ref>, busy: set<Ref>)
    requires Inv(st, hand, busy) && s in st.sessions && Adds(st, st', s, index, y)
    ensures Alone(st, st', s, k)
  {
    Unused(st, st.next, hand, busy);
    ChannelUpdated(st.channels, st.next, NewChannel(s, index), s);
    assert st.sessions[s := y] - {s} == st.sessions - {s};
  }

  lemma {:induction false} AddChannelsAlone(st: State, s: nat, n: nat, count: nat, k: nat, hand: multiset<Ref>,
                                            busy: set<Ref>)
    requires Inv(st, hand, busy) && s in st.sessions && count <= n && Opening.Created(st.sessions[s], n, 0)
    ensures Alone(st, AddChannels(st, s, count), s, k)
  {
    if count == 0 {
      FaultOnly(st, s, k);
    } else {
      AddChannelsAlone(st, s, n, count - 1, k, hand, busy);
      LastAlone(st, s, n, count, k, hand, busy);
      AloneOn(st, AddChannels(st, s, count - 1), AddChannels(st, s, count), s, k);
    }
  }

  lemma LastAlone(st: State, s: nat, n: nat, count: nat, k: nat, hand: multiset<Ref>, busy: set<Ref>)
    requires Inv(st, hand, busy) && s in st.sessions && 0 < count <= n && Opening.Created(st.sessions[s], n, 0)
    ensures Alone(AddChannels(st, s, count - 1), AddChannels(st, s, count), s, k)
  {
    AddChannelsKeeps(st, s, n, count - 1, hand, busy);
    AddChannelAlone(AddChannels(st, s, count - 1), s, n, count - 1, k, hand, busy);
    AddedOne(st, s, count);
  }

  lemma AddChannelAlone(st: State, s: nat, n: nat, index: nat, k: nat, hand: multiset<Ref>, busy: set<Ref>)
    requires Inv(st, hand, busy) && s in st.sessions && index < n && Opening.Created(st.sessions[s], n, index)
    ensures Alone(st, AddChannel(st, s, index), s, k)
  {
    var x, c := st.sessions[s], st.next;
    AddsChannel(st, s, n, index);
    AddsAlone(st, AddChannel(st, s, index), s, index,
              x.(ref := x.ref + 1, members := x.members + {c}, channels := x.channels[index := Some(c)]), k, hand,
              busy);
  }

  lemma AddSystemChannelAlone(st: State, s: nat, n: nat, k: nat, hand: multiset<Ref>, busy: set<Ref>)
    requires Inv(st, hand, busy) && s in st.sessions && Opening.Created(st.sessions[s], n, n)
    ensures Alone(st, AddSystemChannel(st, s), s, k)
  {
    var x, c := st.sessions[s], st.next;
    var y := x.(ref := x.ref + 1, members := x.members + {c}, system := Some(c));
    assert AddSystemChannel(st, s)
           == st.(channels := st.channels[c := NewChannel(s, SYSTEM_INDEX)], sessions := st.sessions[s := y],
                  rtc := st.rtc[Dc(c) := true], ledger := Acquired(st.ledger, ChannelRef(c)), next := c + 1);
    AddsAlone(st, AddSystemChannel(st, s), s, SYSTEM_INDEX, y, k, hand, busy);
  }

  lemma CreateChannelsAlone(st: State, s: nat, o: Outcome, k: nat, hand: multiset<Ref>, busy: set<Ref>)
    requires Inv(st, hand, busy) && s in st.sessions && st.sessions[s].authenticated && st.sessions[s].active
    requires st.sessions[s].channels == [] && st.sessions[s].system.None? && st.sessions[s].members == {}
    ensures Alone(st, CreateChannels(st, s, o).st, s, k)
  {
    var x := st.sessions[s];
    SessionFacts(st, s, hand, busy);
    FaultOnly(st, s, k);
    if o.resize {
      var n := st.sockets[x.socket].modes;
      assert Holds(Maps, st, hand, busy);
      assert MappedBack(x.socket, st.sockets, st.socketMap);
      SlotsResized(st, s, n, hand, busy);
      var st1 := SetSession(st, s, x.(channels := seq(n, _ => None)));
      SessionOnly(st, x.(channels := seq(n, _ => None)), st.fault, s, k);
      var count := if o.acquired < n then o.acquired else n;
      var st2 := AddChannels(st1, s, count);
      AddChannelsAlone(st1, s, n, count, k, hand, busy);
      AloneOn(st, st1, st2, s, k);
      AddChannelsKeeps(st1, s, n, count, hand, busy);
      if o.acquired > n {
        AddSystemChannelAlone(st2, s, n, k, hand, busy);
        AloneOn(st, st2, AddSystemChannel(st2, s), s, k);
      }
    }
  }

  lemma SameSocket(st: State, s: nat, o: Outcome)
    requires s in st.sessions
    ensures CreateChannels(st, s, o).st.sessions[s].socket == st.sessions[s].socket
  {
    var x := st.sessions[s];
    if x.socket in st.sockets && o.resize {
      var n := st.sockets[x.socket].modes;
      var st1 := SetSession(st, s, x.(channels := seq(n, _ => None)));
      SocketFixed(st1, s, if o.acquired < n then o.acquired else n);
    }
  }

  lemma {:induction false} SocketFixed(st: State, s: nat, count: nat)
    requires s in st.sessions
    ensures AddChannels(st, s, count).sessions[s].socket == st.sessions[s].socket
  {
    if count > 0 { SocketFixed(st, s, count - 1); }
  }

  lemma ScheduleTimeoutAlone(st: State, s: nat, k: nat, hand: multiset<Ref>, busy: set<Ref>)
    requires Inv(st, hand, busy) && s in st.sessions
    ensures Alone(st, ScheduleTimeout(st, s), s, k)
  {
    var t, y := st.next, st.sessions[s].(timeout := Some(st.next));
    Unused(st, t, hand, busy);
    TimerUpdated(st.timers, t, Timeout(s), s);
    assert st.sessions[s := y] - {s} == st.sessions - {s};
    OwnOnly(st, st.sessions[s := y], st.channels, st.timers[t := Timeout(s)], st.ledger, t + 1, st.fault, s, k);
  }

  lemma AcceptedAlone(st: State, s: nat, token: int, o: Outcome, k: nat, hand: multiset<Ref>, busy: set<Ref>)
    requires Inv(st, hand, busy) && s in st.sessions && st.sessions[s].authenticated && st.sessions[s].active
    requires st.sessions[s].channels == [] && st.sessions[s].system.None? && st.sessions[s].members == {}
    requires st.sessions[s].socket == k
    ensures
      var r := CreateChannels(st, s, o);
      Alone(st, if !r.ok then SessionClose(r.st, s)
                else if token <= 0 then r.st
                else if !o.timer then SessionClose(r.st, s)
                else ScheduleTimeout(r.st, s), s, k)
  {
    var st1 := CreateChannels(st, s, o).st;
    CreateChannelsAlone(st, s, o, k, hand, busy);
    CreateChannelsKeeps(st, s, o, hand, busy);
    SameSocket(st, s, o);
    SessionCloseAlone(st1, s, k, hand, busy);
    AloneOn(st, st1, SessionClose(st1, s), s, k);
    ScheduleTimeoutAlone(st1, s, k, hand, busy);
    AloneOn(st, st1, ScheduleTimeout(st1, s), s, k);
  }

  lemma WsAuthResultAlone(st: State, s: nat, token: Option<int>, o: Outcome, k: nat)
    requires Invariant(st) && s in st.sessions && st.sessions[s].wsActive && !st.sessions[s].authenticated
    requires st.sessions[s].socket == k
    ensures Alone(st, WsAuthResult(st, s, token, o), s, k)
  {
    var none: set<Ref> := {};
    var busy := if token.Some? then none else none + {SessionRef(s)};
    var y := st.sessions[s].(authenticated := token.Some?, authResults := 1);
    var st1 := SetSession(st, s, y);
    NotYetAuthenticated(st, s, multiset{}, none);
    AuthRecorded(st, s, token.Some?, multiset{}, none, busy);
    FirstResult(st, s, token, o);
    SessionOnly(st, y, st.fault, s, k);
    var st2 := UnscheduleTimeout(st1, s);
    TimersOwn(st1, s, multiset{}, busy);
    UnscheduleTimeoutAlone(st1, s, k);
    UnscheduleTimeoutKeeps(st1, s, multiset{}, busy);
    AloneOn(st, st1, st2, s, k);
    if token.None? {
      SessionCloseAlone(st2, s, k, multiset{}, busy);
    } else {
      AcceptedAlone(st2, s, token.value, o, k, multiset{}, busy);
    }
    AloneOn(st, st2, OnAuthResult(st1, s, token, o), s, k);
  }

  // ----- The handshake -----------------------------------------------------------------

  lemma AskAlone(st: State, s: nat, y: Session, k: nat)
    requires s in st.sessions
    ensures Alone(st, Ask(st, s, y), s, k)
  {
    var z := y.(ref := y.ref + B(ExecutorUp(st)), openings := y.openings + 1);
    Submits(st, Requests(st, s), st.lost, z, s, k);
  }

  lemma RecvReadyAlone(st: State, s: nat, k: nat)
    requires Invariant(st) && s in st.sessions && st.sessions[s].authenticated && st.sessions[s].socket == k
    ensures Alone(st, RecvReady(st, s), s, k)
  {
    var x := st.sessions[s];
    SessionFacts(st, s, multiset{}, {});
    FaultOnly(st, s, k);
    SessionOnly(st, x.(readyReceived := true), st.fault, s, k);
    if !x.readyReceived && x.allOpened {
      var st1 := UnscheduleTimeout(st, s);
      ReadyAsks(st, s);
      TimersOwn(st, s, multiset{}, {});
      UnscheduleTimeoutAlone(st, s, k);
      AskAlone(st1, s, x.(readyReceived := true, timeout := None), k);
      AloneOn(st, st1, RecvReady(st, s), s, k);
    }
  }

  lemma StartPingAlone(st: State, s: nat, o: Outcome, k: nat)
    requires s in st.sessions && st.next !in st.timers
    ensures Alone(st, StartPing(st, s, o), s, k)
  {
    var x := st.sessions[s];
    if o.timer {
      TimerUpdated(st.timers, st.next, Ping(s), s);
      assert st.sessions[s := x.(ping := Some(st.next))] - {s} == st.sessions - {s};
      OwnOnly(st, st.sessions[s := x.(ping := Some(st.next))], st.channels, st.timers[st.next := Ping(s)],
              Pinging(st.ledger, s, x.active, st.next), st.next + 1, st.fault, s, k);
    } else {
      SessionOnly(st, x.(ping := None), st.fault, s, k);
    }
  }

  lemma LastOpenAlone(st: State, s: nat, c: nat, o: Outcome, k: nat)
    requires Invariant(st) && OpenAtHand(st, s, c) && st.sessions[s].socket == k
    requires st.sessions[s].openCount == |st.sessions[s].channels|
    ensures Alone(st, OnChannelOpened(st, s, c, o), s, k)
  {
    var x := st.sessions[s];
    var y := SeesOpen(x, c).(allOpened := true);
    OpenFacts(st, s, c, SeesOpen(x, c), multiset{}, {});
    OpenCounted(x, c, QueueRefs(st.tasks, st.exec)[SessionRef(s)], 0);
    Unused(st, st.next, multiset{}, {});
    if x.readyReceived {
      var st1 := UnscheduleTimeout(st, s);
      LastOpenAsks(st, s, c, o);
      TimersOwn(st, s, multiset{}, {});
      UnscheduleTimeoutAlone(st, s, k);
      UnscheduleTimeoutIs(st, s);
      var st2 := Ask(st1, s, y.(timeout := None));
      AskAlone(st1, s, y.(timeout := None), k);
      AloneOn(st, st1, st2, s, k);
      StartPingAlone(st2, s, o, k);
      AloneOn(st, st2, StartPing(st2, s, o), s, k);
    } else {
      var st1 := SetSession(st, s, y);
      LastOpenWaits(st, s, c, o);
      SessionOnly(st, y, st.fault, s, k);
      StartPingAlone(st1, s, o, k);
      AloneOn(st, st1, StartPing(st1, s, o), s, k);
    }
  }

  lemma OnChannelOpenedAlone(st: State, s: nat, c: nat, o: Outcome, k: nat)
    requires Invariant(st) && OpenAtHand(st, s, c) && st.sessions[s].socket == k
    ensures Alone(st, OnChannelOpened(st, s, c, o), s, k)
  {
    if st.sessions[s].openCount == |st.sessions[s].channels| {
      LastOpenAlone(st, s, c, o, k);
    } else {
      SessionOnly(st, SeesOpen(st.sessions[s], c), st.fault, s, k);
    }
  }

  // ----- Connected ---------------------------------------------------------------------

  lemma EnableAlone(st: State, slot: Option<nat>, s: nat, k: nat)
    requires slot.Some? && slot.value in st.channels ==> st.channels[slot.value].session == s
    ensures Alone(st, EnableReceiving(st, slot), s, k)
  {
    FaultOnly(st, s, k);
    if slot.Some? && slot.value in st.channels {
      ChannelOnly(st, slot.value, st.channels[slot.value].(dcReceive := true), s, k);
    }
  }

  lemma {:induction false} EnableSlotsAlone(st: State, s: nat, j: nat, k: nat, hand: multiset<Ref>, busy: set<Ref>)
    requires Inv(st, hand, busy) && s in st.sessions && st.sessions[s].native.Some? && j <= |st.sessions[s].channels|
    requires forall i :: 0 <= i < j ==> st.sessions[s].channels[i].Some?
    ensures Alone(st, EnableSlots(st, st.sessions[s].channels[..j]), s, k)
  {
    var slots := st.sessions[s].channels;
    FaultOnly(st, s, k);
    if j > 0 {
      EnableSlotsAlone(st, s, j - 1, k, hand, busy);
      EnableSlotsKeeps(st, s, j - 1, hand, busy);
      var st1 := EnableSlots(st, slots[..j - 1]);
      assert slots[..j][..j - 1] == slots[..j - 1];
      SlotFacts(st1, s, j - 1, hand, busy);
      EnableAlone(st1, slots[j - 1], s, k);
      AloneOn(st, st1, EnableReceiving(st1, slots[j - 1]), s, k);
    }
  }

  lemma OnConnectedAlone(st: State, s: nat, k: nat, hand: multiset<Ref>, busy: set<Ref>)
    requires Inv(st, hand, busy) && s in st.sessions && st.sessions[s].native.Some?
    requires AllThere(st.sessions[s], st.channels)
    ensures Alone(st, OnConnected(st, s), s, k)
  {
    var x := st.sessions[s];
    EnableSlotsKeeps(st, s, |x.channels|, hand, busy);
    EnableSlotsAlone(st, s, |x.channels|, k, hand, busy);
    assert x.channels[..|x.channels|] == x.channels;
    var st1 := EnableSlots(st, x.channels);
    assert Holds(Slots, st1, hand, busy);
    assert SlotsFilled(s, st1.sessions, st1.channels, st1.rtc);
    EnableAlone(st1, x.system, s, k);
    AloneOn(st, st1, EnableReceiving(st1, x.system), s, k);
  }

  lemma OwnersUpdated(owners: map<nat, nat>, n: nat, s: nat)
    requires n in owners ==> owners[n] == s
    ensures ForeignOwners(owners[n := s], s) == ForeignOwners(owners, s)
  {
  }

  /** The native session is handed over. */
  lemma ArrivesAlone(st: State, n: nat, s: nat, k: nat)
    requires s in st.sessions && n !in st.owners
    ensures Alone(st, st.(owners := st.owners[n := s],
                          sessions := st.sessions[s := st.sessions[s].(native := Some(n))]), s, k)
  {
    var sessions' := st.sessions[s := st.sessions[s].(native := Some(n))];
    assert sessions' - {s} == st.sessions - {s};
    OwnersUpdated(st.owners, n, s);
    OutsideSame(st, st.(owners := st.owners[n := s], sessions := sessions'), s);
  }

  /** The gates open, and the reference of the creation is dropped. */
  lemma ConnectedAlone(st: State, s: nat, k: nat)
    requires Inv(st, multiset{SessionRef(s)}, {}) && s in st.sessions && st.sessions[s].native.Some?
    requires st.sessions[s].socket == k && AllThere(st.sessions[s], st.channels)
    ensures Alone(st, UnrefSession(OnConnected(st, s), s), s, k)
  {
    var hand := multiset{SessionRef(s)};
    var st1 := OnConnected(st, s);
    OnConnectedAlone(st, s, k, hand, {});
    OnConnectedKeeps(st, s, hand, {});
    ConnectedSessions(st, s);
    TimersOwn(st1, s, hand, {});
    UnrefSessionAlone(st1, s, k);
    AloneOn(st, st1, UnrefSession(st1, s), s, k);
  }

  lemma ConnectedSessions(st: State, s: nat)
    requires s in st.sessions
    ensures OnConnected(st, s).sessions == st.sessions
  {
    EnableSlotsOnly(st, st.sessions[s].channels);
    EnableOnly(EnableSlots(st, st.sessions[s].channels), st.sessions[s].system);
  }

  lemma CreatedAlone(st: State, s: nat, n: nat, k: nat, o: Outcome)
    requires Invariant(st) && st.tasks != [] && st.tasks[0] == Task.Created(s, Some(n))
    requires s in st.sessions && st.sessions[s].socket == k && AllThere(st.sessions[s], st.channels)
    ensures Alone(st.(tasks := st.tasks[1..]), Loop(st, o), s, k)
  {
    var st0 := st.(tasks := st.tasks[1..]);
    var st1 := st0.(owners := st.owners[n := s], sessions := st.sessions[s := st.sessions[s].(native := Some(n))]);
    NotOwnedYet(st, s, n);
    ArrivesAlone(st0, n, s, k);
    ArrivesKeeps(st, st1, s, n);
    ConnectedAlone(st1, s, k);
    assert Loop(st, o) == UnrefSession(OnConnected(st1, s), s);
    AloneOn(st0, st1, Loop(st, o), s, k);
  }

  lemma NotOwnedYet(st: State, s: nat, n: nat)
    requires Invariant(st) && st.tasks != [] && st.tasks[0] == Task.Created(s, Some(n))
    ensures n !in st.owners
  {
    assert Holds(Owners, st, multiset{}, {});
    assert HandedOver(n, st.tasks, st.owners, st.made);
    Popped(TransitOf, st.tasks);
  }

  // ----- Channels ----------------------------------------------------------------------

  lemma ArrivedAlone(st: State, s: nat, index: nat, k: nat)
    requires Invariant(st) && s in st.sessions
    ensures Alone(st, DataChannelArrived(st, s, index), s, k)
  {
    var slots := st.sessions[s].channels;
    FaultOnly(st, s, k);
    if index < |slots| && slots[index].Some? {
      SlotFacts(st, s, index, multiset{}, {});
      ChannelOnly(st, slots[index].value, st.channels[slots[index].value].(incoming := true), s, k);
    }
  }

  lemma ReceiveAlone(st: State, c: nat, s: nat, k: nat)
    requires c in st.channels && st.channels[c].session == s
    ensures Alone(st, DcMessage(st, c), s, k)
  {
    FaultOnly(st, s, k);
    SubmitAlone(st, c, s, k);
  }

  lemma SubmitAlone(st: State, c: nat, s: nat, k: nat)
    requires c in st.channels && st.channels[c].session == s
    ensures Alone(st, ChannelReceive(st, c), s, k)
  {
    var x := st.channels[c];
    FaultOnly(st, s, k);
    if s in st.sessions && ExecutorUp(st) {
      var st1 := SetChannel(st, c, x.(ref := x.ref + 1));
      var command := Receive(c, st.sessions[s].native);
      ChannelOnly(st, c, x.(ref := x.ref + 1), s, k);
      assert st1.sessions[s := st1.sessions[s]] == st1.sessions;
      Submits(st1, st1.exec + [command], st1.lost, st1.sessions[s], s, k);
      AloneOn(st, st1, Submit(st1, command), s, k);
    }
  }

  lemma DcClosedAlone(st: State, c: nat, s: nat, k: nat)
    requires c in st.channels && st.channels[c].session == s && s in st.sessions && st.sessions[s].socket == k
    requires OwnTimers(st, s)
    ensures
      var st1 := st.(ledger := Straying(st.ledger, c, st.channels[c]));
      Alone(st, UnrefChannel(RemoveChannel(st1, s, st.channels[c].index), c), s, k)
  {
    var ledger' := Straying(st.ledger, c, st.channels[c]);
    var y := st.sessions[s].(channels := SetSlot(st.sessions[s].channels, st.channels[c].index, None));
    var st1 := st.(ledger := ledger', sessions := st.sessions[s := y]);
    assert st.sessions[s := y] - {s} == st.sessions - {s};
    OwnOnly(st, st.sessions[s := y], st.channels, st.timers, ledger', st.next, st.fault, s, k);
    UnrefChannelAlone(st1, c, s, k);
    AloneOn(st, st1, UnrefChannel(st1, c), s, k);
  }

  // ----- Every task --------------------------------------------------------------------

  /** The session that the task is about. */
  function SessionOf(st: State, t: Task): Option<nat> {
    match t
    case Event(source, what) =>
      (match source
       case Wss(k) => if what.Client? then Some(st.next) else None
       case Ws(s) => Some(s)
       case Pc(s) => Some(s)
       case Dc(c) => if c in st.channels then Some(st.channels[c].session) else None)
    case Listening(_, _) => None
    case Stopped(_) => None
    case Disconnect(n) => if n in st.owners then Some(st.owners[n]) else None
    case Deliver(n, _) => if n in st.owners then Some(st.owners[n]) else None
    case Created(s, _) => Some(s)
    case Received(c) => if c in st.channels then Some(st.channels[c].session) else None
  }

  /** The closed event of a WS or a PC. */
  lemma ClosedAlone(st: State, s: nat, k: nat)
    requires Inv(st, multiset{SessionRef(s)}, {}) && s in st.sessions && st.sessions[s].socket == k && !StaleIn(st, s)
    ensures Alone(st, UnrefSession(SessionClose(st, s), s), s, k)
  {
    var st1, none: set<Ref> := SessionClose(st, s), {};
    SessionCloseAlone(st, s, k, multiset{SessionRef(s)}, none);
    SessionCloseKeeps(st, s, multiset{SessionRef(s)}, none);
    assert none - {SessionRef(s)} == none;
    TimersOwn(st1, s, multiset{SessionRef(s)}, none);
    SocketStaysOf(st, s, multiset{SessionRef(s)}, none);
    UnrefSessionAlone(st1, s, k);
    AloneOn(st, st1, UnrefSession(st1, s), s, k);
  }

  /** A close leaves the session its socket. */
  lemma SocketStaysOf(st: State, s: nat, hand: multiset<Ref>, busy: set<Ref>)
    requires Inv(st, hand, busy) && s in st.sessions && !StaleIn(st, s)
    ensures s in SessionClose(st, s).sessions ==> SessionClose(st, s).sessions[s].socket == st.sessions[s].socket
  {
    if st.sessions[s].active {
      var x := st.sessions[s];
      CloseChannelsKeeps(st, s, hand, busy);
      var st1 := CloseSlot(CloseSlots(Deactivate(st, s), x.channels), x.system);
      ClosePartsSocket(st1, s);
      UnrefRecord(CloseParts(st1, s), s);
    }
  }

  /** Of a session that survives, dropping a reference changes only the count. */
  lemma UnrefRecord(st: State, s: nat)
    ensures
      var st' := UnrefSession(st, s);
      s in st'.sessions ==> s in st.sessions && st'.sessions[s] == st.sessions[s].(ref := st'.sessions[s].ref)
  {
    if s in st.sessions && st.sessions[s].ref <= 1 {
      var st1 := UnscheduleTimeout(DestroyNative(st, s), s);
      var st2 := st1.(sessions := st1.sessions - {s}, ledger := Released(st1.ledger, SessionRef(s)));
      DestroyNativeFrame(st, s);
      UnrefSocketFrame(st2, st1.sessions[s].socket);
    }
  }

  lemma MessageAlone(st: State, s: nat, raw: seq<char>, o: Outcome, k: nat)
    requires Invariant(st) && s in st.sessions && st.sessions[s].wsActive && st.sessions[s].socket == k
    requires !Frames.Dispatch(st.sessions[s].authenticated, raw).Overread?
    ensures Alone(st, ProcessMessage(st, s, raw, o), s, k)
  {
    FaultOnly(st, s, k);
    match Frames.Dispatch(st.sessions[s].authenticated, raw)
    case Auth(_) => WsAuthResultAlone(st, s, o.token, o, k);
    case Ready => RecvReadyAlone(st, s, k);
    case _ =>
  }

  lemma WsAlone(st: State, s: nat, what: RtcEvent, o: Outcome)
    requires Invariant(st) && st.tasks != [] && st.tasks[0] == Event(Ws(s), what) && !TaskHazard(st, st.tasks[0])
    ensures s in st.sessions && Alone(Taken(st), Loop(st, o), s, st.sessions[s].socket)
  {
    PlainTaken(st);
    assert RtcRef(Ws(s)) == SessionRef(s);
    assert Loop(st, o) == WsEvent(Taken(st), s, what, o);
    FaultOnly(Taken(st), s, st.sessions[s].socket);
    match what
    case Message(raw) =>
      if st.sessions[s].wsActive { MessageAlone(Taken(st), s, raw, o, st.sessions[s].socket); }
    case Closed => ClosedAlone(Taken(st), s, st.sessions[s].socket);
    case _ =>
  }

  lemma PcAlone(st: State, s: nat, what: RtcEvent, o: Outcome)
    requires Invariant(st) && st.tasks != [] && st.tasks[0] == Event(Pc(s), what) && !TaskHazard(st, st.tasks[0])
    ensures s in st.sessions && Alone(Taken(st), Loop(st, o), s, st.sessions[s].socket)
  {
    PlainTaken(st);
    assert RtcRef(Pc(s)) == SessionRef(s);
    var k := st.sessions[s].socket;
    assert Loop(st, o) == PcEvent(Taken(st), s, what);
    FaultOnly(Taken(st), s, k);
    match what
    case DataChannel(valid, index) =>
      if valid { ArrivedAlone(Taken(st), s, index, k); } else { SessionCloseAlone(Taken(st), s, k, multiset{}, {}); }
    case Closed => ClosedAlone(Taken(st), s, k);
    case _ =>
  }

  lemma DcAlone(st: State, c: nat, what: RtcEvent, o: Outcome)
    requires Invariant(st) && st.tasks != [] && st.tasks[0] == Event(Dc(c), what)
    ensures c in st.channels && st.channels[c].session in st.sessions
    ensures Alone(Taken(st), Loop(st, o), st.channels[c].session, st.sessions[st.channels[c].session].socket)
  {
    assert Holds(Events, st, multiset{}, {}) && Holds(Counts, st, multiset{}, {});
    HeadEvents(st.tasks, st.rtc);
    assert RtcRef(Dc(c)) == ChannelRef(c);
    assert Live(st.sockets, st.sessions, st.channels, RtcRef(Dc(c)));
    ChannelFacts(st, c, multiset{}, {});
    var s := st.channels[c].session;
    var k := st.sessions[s].socket;
    TimersOwn(st, s, multiset{}, {});
    FaultOnly(Taken(st), s, k);
    match what
    case Closed => DcClosedAlone(Taken(st), c, s, k);
    case Open =>
      DcOpenTaken(st, c);
      OnChannelOpenedAlone(Taken(st), s, c, o, k);
    case Error => ChannelCloseAlone(Taken(st), c, s, k);
    case Message(_) => ReceiveAlone(Taken(st), c, s, k);
    case _ =>
  }

  lemma AddressedAlone(st: State, o: Outcome)
    requires Invariant(st) && st.tasks != [] && (st.tasks[0].Disconnect? || st.tasks[0].Deliver?)
    requires !TaskHazard(st, st.tasks[0])
    ensures st.tasks[0].native in st.owners && st.owners[st.tasks[0].native] in st.sessions
    ensures
      var s := st.owners[st.tasks[0].native];
      Alone(Taken(st), Loop(st, o), s, st.sessions[s].socket)
  {
    PlainTaken(st);
    AddressedOwned(st);
    var s := st.owners[st.tasks[0].native];
    FaultOnly(Taken(st), s, st.sessions[s].socket);
    if st.tasks[0].Disconnect? {
      SessionCloseAlone(Taken(st), s, st.sessions[s].socket, multiset{}, {});
    } else {
      DeliverKeeps(st, o);
      assert Loop(st, o) in {Taken(st), Fail(Taken(st))};
    }
  }

  lemma AnsweredAlone(st: State, o: Outcome)
    requires Invariant(st) && st.tasks != [] && st.tasks[0].Received?
    ensures st.tasks[0].c in st.channels && st.channels[st.tasks[0].c].session in st.sessions
    ensures
      var s := st.channels[st.tasks[0].c].session;
      Alone(Taken(st), Loop(st, o), s, st.sessions[s].socket)
  {
    var c := st.tasks[0].c;
    PlainTaken(st);
    assert Holds(Counts, Taken(st), multiset{ChannelRef(c)}, {});
    assert Live(st.sockets, st.sessions, st.channels, ChannelRef(c));
    ChannelFacts(st, c, multiset{}, {});
    TimersOwn(st, st.channels[c].session, multiset{}, {});
    UnrefChannelAlone(Taken(st), c, st.channels[c].session, st.sessions[st.channels[c].session].socket);
  }

  lemma CreationAlone(st: State, s: nat, created: Option<nat>, o: Outcome)
    requires Invariant(st) && st.tasks != [] && st.tasks[0] == Task.Created(s, created)
    requires !TaskHazard(st, st.tasks[0])
    ensures s in st.sessions && Alone(Taken(st), Loop(st, o), s, st.sessions[s].socket)
  {
    StillWaiting(st, s, created);
    if created.Some? {
      CreatedAlone(st, s, created.value, st.sessions[s].socket, o);
    } else {
      PlainTaken(st);
      ClosedAlone(Taken(st), s, st.sessions[s].socket);
    }
  }

  lemma ClientAlone(st: State, k: nat, o: Outcome)
    requires Invariant(st) && st.tasks != [] && st.tasks[0] == Event(Wss(k), Client)
    ensures k in st.sockets && Alone(Taken(st), Loop(st, o), st.next, k)
  {
    PlainTaken(st);
    assert RtcRef(Wss(k)) == SocketRef(k);
    FaultOnly(Taken(st), st.next, k);
    if st.sockets[k].wssActive { CreateSessionAlone(Taken(st), k, o); }
  }

  /** A task about one session leaves everything alone that does not belong to this session. */
  lemma TaskAlone(st: State, s: nat, o: Outcome)
    requires Reachable(st) && st.tasks != [] && SessionOf(st, st.tasks[0]) == Some(s) && !TaskHazard(st, st.tasks[0])
    ensures
      var st' := Loop(st, o);
      if st.tasks[0].Event? && st.tasks[0].what.Client? && st.tasks[0].source.Wss? then
        Alone(Taken(st), st', s, st.tasks[0].source.k)
      else s in st.sessions && Alone(Taken(st), st', s, st.sessions[s].socket)
  {
    ReachableInvariant(st);
    match st.tasks[0]
    case Event(source, what) =>
      match source {
        case Wss(k) => ClientAlone(st, k, o);
        case Ws(_) => WsAlone(st, s, what, o);
        case Pc(_) => PcAlone(st, s, what, o);
        case Dc(c) => DcAlone(st, c, what, o);
      }
    case Disconnect(_) => AddressedAlone(st, o);
    case Deliver(_, _) => AddressedAlone(st, o);
    case Created(_, created) => CreationAlone(st, s, created, o);
    case Received(_) => AnsweredAlone(st, o);
  }

  /** So does a timeout. */
  lemma TimeoutAlone(st: State, t: nat)
    requires Reachable(st) && t in st.timers && st.timers[t].Timeout? && !TimerHazard(st, st.timers[t])
    ensures
      var s := st.timers[t].s;
      s in st.sessions && Alone(st, Fire(st, t), s, st.sessions[s].socket)
  {
    ReachableInvariant(st);
    var s, none: set<Ref> := st.timers[t].s, {};
    assert Holds(Clocks, st, multiset{}, none);
    assert TimerOwned(t, st.sessions, st.timers);
    TimersOwn(st, s, multiset{}, none);
    var st1 := UnscheduleTimeout(st, s);
    UnscheduleTimeoutAlone(st, s, st.sessions[s].socket);
    UnscheduleTimeoutKeeps(st, s, multiset{}, none);
    SessionCloseAlone(st1, s, st.sessions[s].socket, multiset{}, none);
    AloneOn(st, st1, SessionClose(st1, s), s, st.sessions[s].socket);
  }

  // ----- Closing a socket --------------------------------------------------------------

  function FarSessions(sessions: Sessions, k: nat): Sessions {
    map s | s in sessions && sessions[s].socket != k :: sessions[s]
  }

  predicate IsFar(s: nat, sessions: Sessions, k: nat) {
    s in sessions && sessions[s].socket != k
  }

  function FarChannels(st: State, k: nat): Channels {
    map c | c in st.channels && IsFar(st.channels[c].session, st.sessions, k) :: st.channels[c]
  }

  function FarTimers(st: State, k: nat): Timers {
    map t | t in st.timers && IsFar(st.timers[t].s, st.sessions, k) :: st.timers[t]
  }

  /** The other sockets, their sessions, and the channels and timers of these are as they were. */
  ghost predicate Distant(st: State, st': State, k: nat) {
    && st'.sockets - {k} == st.sockets - {k}
    && FarSessions(st'.sessions, k) == FarSessions(st.sessions, k)
    && FarChannels(st', k) == FarChannels(st, k) && FarTimers(st', k) == FarTimers(st, k)
    && st'.tasks == st.tasks && st'.rtc == st.rtc && st'.made == st.made && st'.destroyed == st.destroyed
  }

  /** What a session of the socket leaves alone includes all of that. */
  lemma AloneDistant(st: State, st': State, s: nat, k: nat)
    requires Alone(st, st', s, k) && st'.rtc == st.rtc
    requires s in st.sessions ==> st.sessions[s].socket == k
    requires s in st'.sessions ==> st'.sessions[s].socket == k
    ensures Distant(st, st', k)
  {
    forall z | z != s ensures z in st'.sessions <==> z in st.sessions {
      assert z in st'.sessions - {s} <==> z in st.sessions - {s};
    }
    forall z | z in st.sessions && z != s ensures st'.sessions[z] == st.sessions[z] {
      assert (st'.sessions - {s})[z] == (st.sessions - {s})[z];
    }
    forall z ensures IsFar(z, st'.sessions, k) <==> IsFar(z, st.sessions, k) {}
    FarOthers(st, st', s, k);
  }

  lemma FarOthers(st: State, st': State, s: nat, k: nat)
    requires ForeignChannels(st'.channels, s) == ForeignChannels(st.channels, s)
    requires ForeignTimers(st'.timers, s) == ForeignTimers(st.timers, s)
    requires forall z :: IsFar(z, st'.sessions, k) <==> IsFar(z, st.sessions, k)
    requires !IsFar(s, st.sessions, k)
    ensures FarChannels(st', k) == FarChannels(st, k) && FarTimers(st', k) == FarTimers(st, k)
  {
    forall c ensures c in FarChannels(st', k) <==> c in FarChannels(st, k) {
      assert c in ForeignChannels(st'.channels, s) <==> c in ForeignChannels(st.channels, s);
    }
    forall c | c in FarChannels(st, k) ensures FarChannels(st', k)[c] == FarChannels(st, k)[c] {
      assert ForeignChannels(st'.channels, s)[c] == ForeignChannels(st.channels, s)[c];
    }
    forall t ensures t in FarTimers(st', k) <==> t in FarTimers(st, k) {
      assert t in ForeignTimers(st'.timers, s) <==> t in ForeignTimers(st.timers, s);
    }
    forall t | t in FarTimers(st, k) ensures FarTimers(st', k)[t] == FarTimers(st, k)[t] {
      assert ForeignTimers(st'.timers, s)[t] == ForeignTimers(st.timers, s)[t];
    }
  }

  lemma PopAlone(st: State, k: nat, hand: multiset<Ref>, busy: set<Ref>)
    requires Inv(st, hand, busy) && k in st.sockets && st.sockets[k].sessions != []
    ensures st.sockets[k].sessions[0].session in st.sessions
    ensures
      var s := st.sockets[k].sessions[0].session;
      st.sessions[s].socket == k && Alone(st, FirstPopped(st, k), s, k)
  {
    var socket := st.sockets[k].(sessions := st.sockets[k].sessions[1..]);
    assert Holds(Lists, st, hand, busy);
    assert ListSound(k, st.sockets, st.sessions, busy);
    assert st.sockets[k].sessions[0] in st.sockets[k].sessions;
    var s := st.sockets[k].sessions[0].session;
    SocketOnly(st, socket, s, k);
    SessionOnly(SetSocket(st, k, socket), st.sessions[s].(entry := None), st.fault, s, k);
    AloneOn(st, SetSocket(st, k, socket), FirstPopped(st, k), s, k);
  }

  lemma PopAndCloseDistant(st: State, k: nat, hand: multiset<Ref>, busy: set<Ref>)
    requires Inv(st, hand, busy) && k in st.sockets && st.sockets[k].sessions != [] && SocketRef(k) in hand
    requires SessionRef(st.sockets[k].sessions[0].session) !in busy
    requires !Stale(st.sockets[k].sessions[0].session, st.sessions, st.channels)
    ensures Distant(st, PopAndClose(st, k, st.sockets[k].sessions[0]), k)
  {
    var s := st.sockets[k].sessions[0].session;
    NodePopped(st, k, hand, busy);
    var st1, busy' := FirstPopped(st, k), busy + {SessionRef(s)};
    PopElsewhere(st, k);
    PopAlone(st, k, hand, busy);
    SessionCloseAlone(st1, s, k, hand, busy');
    SocketStaysOf(st1, s, hand, busy');
    UnlistedCloseDwindles(st1, s, hand, busy');
    AloneOn(st, st1, SessionClose(st1, s), s, k);
    AloneDistant(st, SessionClose(st1, s), s, k);
  }

  lemma {:induction false} CloseNodesDistant(st: State, k: nat, nodes: seq<Node>, hand: multiset<Ref>, busy: set<Ref>)
    requires Inv(st, hand, busy) && k in st.sockets && SocketRef(k) in hand
    requires nodes <= st.sockets[k].sessions && forall s :: SessionRef(s) !in busy
    requires !StaleAmong(nodes, st.sessions, st.channels)
    ensures Distant(st, CloseNodes(st, k, nodes), k)
  {
    if nodes != [] {
      var n := |nodes| - 1;
      var list, first, st1 := st.sockets[k].sessions, nodes[..n], CloseNodes(st, k, nodes[..n]);
      CloseNodesDistant(st, k, first, hand, busy);
      CloseNodesKeeps(st, k, first, hand, busy);
      assert list[..n] == first && list[n..][0] == nodes[n] && nodes[n] in nodes;
      LastOnce(st, k, n, hand, busy);
      PopAndCloseDistant(st1, k, hand, busy);
      assert CloseNodes(st, k, nodes) == PopAndClose(st1, k, nodes[n]);
    }
  }

  /** Closing a socket leaves every other socket alone, with all that belongs to it. */
  lemma SocketCloseDistant(st: State, k: nat)
    requires Invariant(st) && k in st.sockets && !StaleOn(st, k)
    ensures Distant(st, SocketClose(st, k), k)
  {
    if st.sockets[k].active {
      var hand, none: set<Ref> := multiset{SocketRef(k)}, {};
      StaleListed(st, k, multiset{});
      SocketDeactivated(st, k, multiset{}, none);
      assert none + {SocketRef(k)} == {SocketRef(k)} && multiset{} + hand == hand;
      var st1 := SetSocket(st, k, st.sockets[k].(active := false));
      assert st1.sockets - {k} == st.sockets - {k};
      CloseNodesDistant(st1, k, st.sockets[k].sessions, hand, {SocketRef(k)});
      CloseNodesKeeps(st1, k, st.sockets[k].sessions, hand, {SocketRef(k)});
      LastUnrefDistant(CloseNodes(st1, k, st.sockets[k].sessions), k);
    }
  }

  lemma LastUnrefDistant(st: State, k: nat)
    requires k in st.sockets
    ensures Distant(st, UnrefSocket(SetSocket(st, k, st.sockets[k].(wssActive := false)), k), k)
  {
    var x := st.sockets[k].(wssActive := false);
    var st1 := SetSocket(st, k, x);
    assert st.sockets[k := x] - {k} == st.sockets - {k};
    UnrefSocketDistant(st1, k);
  }

  lemma UnrefSocketDistant(st: State, k: nat)
    requires k in st.sockets
    ensures Distant(st, UnrefSocket(st, k), k)
  {
    var x := st.sockets[k];
    if x.ref > 1 {
      assert st.sockets[k := x.(ref := x.ref - 1)] - {k} == st.sockets - {k};
    } else {
      assert st.sockets - {k} - {k} == st.sockets - {k};
    }
  }

  /** When a native socket stops, the other sockets go on as before. */
  lemma StoppedDistant(st: State, n: nat, o: Outcome)
    requires Reachable(st) && st.tasks != [] && st.tasks[0] == Stopped(n) && !TaskHazard(st, st.tasks[0])
    ensures if n in st.socketMap then Distant(Taken(st), Loop(st, o), st.socketMap[n]) else Loop(st, o) == Taken(st)
  {
    ReachableInvariant(st);
    PlainTaken(st);
    assert Holds(Maps, st, multiset{}, {});
    if n in st.socketMap {
      assert MapsToLive(n, st.sockets, st.socketMap);
      SocketCloseDistant(Taken(st), st.socketMap[n]);
    }
  }
}
