/** What dropping references and closing never does: no task is posted, no object made, no timer
    started, and a native session is only given up. */
module Dwindling {
  import opened Wrappers
  import opened Model
  import opened Lifecycle

  // ----- Dropping references -----------------------------------------------------------

  /** The commands added to the executor's queue only destroy. */
  ghost predicate OnlyDestroys(exec: seq<Command>, exec': seq<Command>) {
    exec <= exec' && forall i :: |exec| <= i < |exec'| ==> exec'[i].Destroy?
  }

  /** Only the counts of sockets change, and sockets without a reference are gone. */
  ghost predicate SocketsKept(sockets: Sockets, sockets': Sockets) {
    forall k {:trigger sockets'[k]} :: k in sockets' ==>
      k in sockets && sockets'[k] == sockets[k].(ref := sockets'[k].ref)
  }

  ghost predicate NoneWakes(sessions: Sessions, sessions': Sessions) {
    forall s {:trigger sessions'[s]} :: s in sessions' ==>
      && s in sessions && (sessions'[s].active ==> sessions[s].active)
      && |sessions'[s].channels| == |sessions[s].channels| && sessions'[s].authResults == sessions[s].authResults
  }

  ghost predicate TimersKept(timers: Timers, timers': Timers) {
    forall t {:trigger timers'[t]} :: t in timers' ==> t in timers && timers'[t] == timers[t]
  }

  /** Dropping references takes objects away, and posts and starts nothing. */
  ghost predicate Dwindles(st: State, st': State) {
    && st'.tasks == st.tasks && st'.owners == st.owners && st'.rtc == st.rtc && st'.listening == st.listening
    && st'.openPosted == st.openPosted && st'.made == st.made && st'.destroyed == st.destroyed && st'.next == st.next
    && SocketsKept(st.sockets, st'.sockets) && NoneWakes(st.sessions, st'.sessions)
    && OnlyDestroys(st.exec, st'.exec) && st.lost <= st'.lost && TimersKept(st.timers, st'.timers)
    && st'.ledger.strays == st.ledger.strays && st'.ledger.late == st.ledger.late && (st.fault ==> st'.fault)
    && (if ExecutorUp(st) then st'.lost == st.lost else st'.exec == st.exec)
  }

  lemma DwindlesOn(st: State, st1: State, st2: State)
    requires Dwindles(st, st1) && Dwindles(st1, st2)
    ensures Dwindles(st, st2)
  {
    forall i | |st.exec| <= i < |st2.exec| ensures st2.exec[i].Destroy? {
      if i < |st1.exec| { assert st2.exec[i] == st1.exec[i]; }
    }
  }

  lemma ObjectsDwindle(st: State, sockets': Sockets, socketMap': map<nat, nat>, sessions': Sessions,
                       channels': Channels, timers': Timers, ledger': Ledger)
    requires SocketsKept(st.sockets, sockets') && NoneWakes(st.sessions, sessions') && TimersKept(st.timers, timers')
    requires ledger'.strays == st.ledger.strays && ledger'.late == st.ledger.late
    ensures Dwindles(st, st.(sockets := sockets', socketMap := socketMap', sessions := sessions',
                             channels := channels', timers := timers', ledger := ledger'))
  {
  }

  lemma UnrefSocketDwindles(st: State, k: nat)
    ensures Dwindles(st, UnrefSocket(st, k))
  {
    if k !in st.sockets {
      assert Dwindles(st, Fail(st));
    } else if st.sockets[k].ref > 1 {
      var sockets' := st.sockets[k := st.sockets[k].(ref := st.sockets[k].ref - 1)];
      ObjectsDwindle(st, sockets', st.socketMap, st.sessions, st.channels, st.timers, st.ledger);
    } else {
      var socketMap' := st.socketMap - {st.sockets[k].native};
      ObjectsDwindle(st, st.sockets - {k}, socketMap', st.sessions, st.channels, st.timers,
                     Released(st.ledger, SocketRef(k)));
    }
  }

  /** Asking for a destroy, or losing it, before the record of the session changes. */
  lemma LetsGo(st: State, exec': seq<Command>, lost': multiset<nat>, sessions': Sessions)
    requires OnlyDestroys(st.exec, exec') && st.lost <= lost' && NoneWakes(st.sessions, sessions')
    requires if ExecutorUp(st) then lost' == st.lost else exec' == st.exec
    ensures Dwindles(st, st.(exec := exec', lost := lost', sessions := sessions'))
  {
  }

  lemma DestroyQueued(st: State, s: nat)
    requires s in st.sessions && st.sessions[s].native.Some? && ExecutorUp(st)
    ensures DestroyNative(st, s)
            == st.(exec := st.exec + [Destroy(st.sessions[s].native.value)],
                   sessions := st.sessions[s := st.sessions[s].(native := None)])
  {
  }

  lemma DestroyRefused(st: State, s: nat)
    requires s in st.sessions && st.sessions[s].native.Some? && !ExecutorUp(st)
    ensures DestroyNative(st, s)
            == st.(lost := st.lost + multiset{st.sessions[s].native.value},
                   sessions := st.sessions[s := st.sessions[s].(native := None)])
  {
  }

  lemma DestroyNativeDwindles(st: State, s: nat)
    requires s in st.sessions
    ensures Dwindles(st, DestroyNative(st, s))
    ensures s in DestroyNative(st, s).sessions && DestroyNative(st, s).sessions[s] == st.sessions[s].(native := None)
  {
    var x := st.sessions[s];
    if x.native.Some? {
      var sessions' := st.sessions[s := x.(native := None)];
      if ExecutorUp(st) {
        DestroyQueued(st, s);
        LetsGo(st, st.exec + [Destroy(x.native.value)], st.lost, sessions');
      } else {
        DestroyRefused(st, s);
        LetsGo(st, st.exec, st.lost + multiset{x.native.value}, sessions');
      }
    }
  }

  lemma UnscheduleTimeoutDwindles(st: State, s: nat)
    requires s in st.sessions
    ensures Dwindles(st, UnscheduleTimeout(st, s))
  {
    var x := st.sessions[s];
    if x.timeout.Some? {
      var sessions', timers' := st.sessions[s := x.(timeout := None)], st.timers - {x.timeout.value};
      ObjectsDwindle(st, st.sockets, st.socketMap, sessions', st.channels, timers', st.ledger);
    }
  }

  lemma ReleaseSessionDwindles(st: State, s: nat)
    requires s in st.sessions
    ensures Dwindles(st, ReleaseSession(st, s))
  {
    var st1 := DestroyNative(st, s);
    DestroyNativeDwindles(st, s);
    var st2 := UnscheduleTimeout(st1, s);
    UnscheduleTimeoutDwindles(st1, s);
    DwindlesOn(st, st1, st2);
    var st3 := st2.(sessions := st2.sessions - {s}, ledger := Released(st2.ledger, SessionRef(s)));
    ObjectsDwindle(st2, st2.sockets, st2.socketMap, st3.sessions, st2.channels, st2.timers, st3.ledger);
    DwindlesOn(st, st2, st3);
    UnrefSocketDwindles(st3, st2.sessions[s].socket);
    DwindlesOn(st, st3, UnrefSocket(st3, st2.sessions[s].socket));
  }

  lemma UnrefSessionDwindles(st: State, s: nat)
    ensures Dwindles(st, UnrefSession(st, s))
  {
    if s !in st.sessions {
      assert Dwindles(st, Fail(st));
    } else if st.sessions[s].ref > 1 {
      var sessions' := st.sessions[s := st.sessions[s].(ref := st.sessions[s].ref - 1)];
      ObjectsDwindle(st, st.sockets, st.socketMap, sessions', st.channels, st.timers, st.ledger);
    } else {
      ReleaseSessionDwindles(st, s);
    }
  }

  lemma UnrefChannelDwindles(st: State, c: nat)
    ensures Dwindles(st, UnrefChannel(st, c))
  {
    if c !in st.channels {
      assert Dwindles(st, Fail(st));
    } else if st.channels[c].ref > 1 {
      var channels' := st.channels[c := st.channels[c].(ref := st.channels[c].ref - 1)];
      ObjectsDwindle(st, st.sockets, st.socketMap, st.sessions, channels', st.timers, st.ledger);
    } else {
      var st1 := st.(channels := st.channels - {c}, ledger := Released(st.ledger, ChannelRef(c)));
      ObjectsDwindle(st, st.sockets, st.socketMap, st.sessions, st1.channels, st.timers, st1.ledger);
      UnrefSessionDwindles(st1, st.channels[c].session);
      DwindlesOn(st, st1, UnrefSession(st1, st.channels[c].session));
    }
  }

  lemma ChannelCloseDwindles(st: State, c: nat)
    ensures Dwindles(st, ChannelClose(st, c))
  {
    if c !in st.channels {
      assert Dwindles(st, Fail(st));
    } else if st.channels[c].active {
      var st1 := SetChannel(st, c, st.channels[c].(active := false, dcActive := false));
      ObjectsDwindle(st, st.sockets, st.socketMap, st.sessions, st1.channels, st.timers, st1.ledger);
      UnrefChannelDwindles(st1, c);
      DwindlesOn(st, st1, UnrefChannel(st1, c));
    }
  }

  lemma {:induction false} CloseSlotsDwindles(st: State, slots: seq<Option<nat>>)
    ensures Dwindles(st, CloseSlots(st, slots))
  {
    if slots != [] {
      var n := |slots| - 1;
      CloseSlotsDwindles(st, slots[..n]);
      var st1 := CloseSlots(st, slots[..n]);
      if slots[n].Some? {
        ChannelCloseDwindles(st1, slots[n].value);
        DwindlesOn(st, st1, CloseSlots(st, slots));
      }
    }
  }

  lemma CloseSlotDwindles(st: State, slot: Option<nat>)
    ensures Dwindles(st, CloseSlot(st, slot))
  {
    if slot.Some? { ChannelCloseDwindles(st, slot.value); }
  }

  lemma DeactivateDwindles(st: State, s: nat)
    requires s in st.sessions
    ensures Dwindles(st, Deactivate(st, s))
  {
    var st1 := SetSession(st, s, st.sessions[s].(active := false));
    ObjectsDwindle(st, st.sockets, st.socketMap, st1.sessions, st.channels, st.timers, st.ledger);
    var x := st1.sessions[s];
    if x.ping.Some? {
      var sessions' := st1.sessions[s := x.(ping := None)];
      ObjectsDwindle(st1, st.sockets, st.socketMap, sessions', st.channels, st.timers - {x.ping.value}, st.ledger);
      DwindlesOn(st, st1, st1.(timers := st.timers - {x.ping.value}, sessions := sessions'));
    }
  }

  /** A session that is not in the list of its socket is closed without touching the list. */
  lemma ClosePartsDwindles(st: State, s: nat)
    requires s in st.sessions && st.sessions[s].entry.None?
    ensures Dwindles(st, CloseParts(st, s))
  {
    var st1 := SetSession(st, s, st.sessions[s].(wsActive := false, pcActive := false));
    ObjectsDwindle(st, st.sockets, st.socketMap, st1.sessions, st.channels, st.timers, st.ledger);
    var st2 := DestroyNative(st1, s);
    DestroyNativeDwindles(st1, s);
    DwindlesOn(st, st1, st2);
    assert RemoveSession(st2, s) == st2;
  }

  lemma UnrefSocketFrame(st: State, k: nat)
    ensures
      var st' := UnrefSocket(st, k);
      && st'.timers == st.timers && st'.exec == st.exec && st'.lost == st.lost && st'.sessions == st.sessions
      && st'.channels == st.channels
  {
    if k in st.sockets && st.sockets[k].ref <= 1 { assert UnrefSocket(st, k) == ReleaseSocket(st, k); }
  }

  lemma DestroyNativeFrame(st: State, s: nat)
    requires s in st.sessions
    ensures
      var st' := DestroyNative(st, s);
      && st'.sockets == st.sockets && st'.timers == st.timers && st'.channels == st.channels
      && st'.sessions == st.sessions[s := st.sessions[s].(native := None)]
  {
    if st.sessions[s].native.None? {
      assert st.sessions[s := st.sessions[s].(native := None)] == st.sessions;
    } else if ExecutorUp(st) {
      DestroyQueued(st, s);
    } else {
      DestroyRefused(st, s);
    }
  }

  // ----- Everything that closes --------------------------------------------------------

  /** The sessions but for the given ones are there since before, with as many slots. */
  ghost predicate SlotsFixed(sessions: Sessions, sessions': Sessions, but: set<nat>) {
    forall s {:trigger sessions'[s]} :: s in sessions' && s !in but ==>
      && s in sessions && |sessions'[s].channels| == |sessions[s].channels|
      && sessions'[s].authResults == sessions[s].authResults
  }

  /** Of the books, of what the executor owes and of the slots of the sessions, a task changes
      only this much: a destroy is lost only while the executor is down, and then nothing else
      is submitted either. */
  ghost predicate Steady(st: State, st': State, but: set<nat>) {
    && (st.fault ==> st'.fault) && st'.tasks == st.tasks
    && st'.listening == st.listening && st'.made == st.made && st'.destroyed == st.destroyed
    && st'.ledger.strays == st.ledger.strays && st'.ledger.late == st.ledger.late && st.lost <= st'.lost
    && (if ExecutorUp(st) then st'.lost == st.lost else st'.exec == st.exec)
    && SlotsFixed(st.sessions, st'.sessions, but)
  }

  lemma SteadyOn(st: State, st1: State, st2: State, but: set<nat>)
    requires Steady(st, st1, but) && Steady(st1, st2, but)
    ensures Steady(st, st2, but)
  {
  }

  lemma DwindlesSteady(st: State, st': State, but: set<nat>)
    requires Dwindles(st, st')
    ensures Steady(st, st', but)
  {
  }

  /** Records of objects change, but for the slots of the sessions. */
  lemma ObjectsSteady(st: State, sockets': Sockets, sessions': Sessions, channels': Channels, timers': Timers,
                      fault': bool, but: set<nat>)
    requires SlotsFixed(st.sessions, sessions', but) && (st.fault ==> fault')
    ensures Steady(st, st.(sockets := sockets', sessions := sessions', channels := channels', timers := timers',
                           fault := fault'), but)
  {
  }

  lemma RemoveSessionSteady(st: State, s: nat, but: set<nat>)
    requires s in st.sessions
    ensures Steady(st, RemoveSession(st, s), but)
  {
    var x := st.sessions[s];
    if x.entry.Some? && x.socket in st.sockets {
      var nodes := RemoveNode(st.sockets[x.socket].sessions, Node(x.entry.value, s));
      var sockets' := st.sockets[x.socket := st.sockets[x.socket].(sessions := nodes)];
      ObjectsSteady(st, sockets', st.sessions[s := x.(entry := None)], st.channels, st.timers, st.fault, but);
    } else {
      ObjectsSteady(st, st.sockets, st.sessions, st.channels, st.timers, true, but);
      ObjectsSteady(st, st.sockets, st.sessions, st.channels, st.timers, st.fault, but);
    }
  }

  lemma ClosePartsSteady(st: State, s: nat, but: set<nat>)
    ensures Steady(st, CloseParts(st, s), but)
  {
    if s in st.sessions {
      var st1 := SetSession(st, s, st.sessions[s].(wsActive := false, pcActive := false));
      ObjectsSteady(st, st.sockets, st1.sessions, st.channels, st.timers, st.fault, but);
      var st2 := DestroyNative(st1, s);
      DestroyNativeDwindles(st1, s);
      DwindlesSteady(st1, st2, but);
      SteadyOn(st, st1, st2, but);
      RemoveSessionSteady(st2, s, but);
      SteadyOn(st, st2, RemoveSession(st2, s), but);
    }
  }

  lemma CloseSlotsSteady(st: State, s: nat, but: set<nat>)
    requires s in st.sessions
    ensures Steady(st, CloseSlot(CloseSlots(Deactivate(st, s), st.sessions[s].channels), st.sessions[s].system), but)
  {
    var x, st1 := st.sessions[s], Deactivate(st, s);
    DeactivateDwindles(st, s);
    CloseSlotsDwindles(st1, x.channels);
    var st2 := CloseSlots(st1, x.channels);
    DwindlesOn(st, st1, st2);
    CloseSlotDwindles(st2, x.system);
    DwindlesOn(st, st2, CloseSlot(st2, x.system));
    DwindlesSteady(st, CloseSlot(st2, x.system), but);
  }

  lemma SessionCloseSteady(st: State, s: nat, but: set<nat>)
    ensures Steady(st, SessionClose(st, s), but)
  {
    if s in st.sessions && st.sessions[s].active {
      var st1 := CloseSlot(CloseSlots(Deactivate(st, s), st.sessions[s].channels), st.sessions[s].system);
      CloseSlotsSteady(st, s, but);
      var st2 := CloseParts(st1, s);
      ClosePartsSteady(st1, s, but);
      SteadyOn(st, st1, st2, but);
      UnrefSessionDwindles(st2, s);
      DwindlesSteady(st2, UnrefSession(st2, s), but);
      SteadyOn(st, st2, UnrefSession(st2, s), but);
    }
  }

  lemma PopSteady(st: State, k: nat, node: Node, but: set<nat>)
    ensures Steady(st, PopAndClose(st, k, node), but)
  {
    if k in st.sockets && node.session in st.sessions && st.sockets[k].sessions != [] {
      var s, x := node.session, st.sockets[k];
      var st1 := SetSession(SetSocket(st, k, x.(sessions := x.sessions[1..])), s, st.sessions[s].(entry := None));
      ObjectsSteady(st, st1.sockets, st1.sessions, st.channels, st.timers, st.fault, but);
      SessionCloseSteady(st1, s, but);
      SteadyOn(st, st1, SessionClose(st1, s), but);
    }
  }

  lemma {:induction false} CloseNodesSteady(st: State, k: nat, nodes: seq<Node>, but: set<nat>)
    ensures Steady(st, CloseNodes(st, k, nodes), but)
  {
    if nodes != [] {
      var n := |nodes| - 1;
      var st1 := CloseNodes(st, k, nodes[..n]);
      CloseNodesSteady(st, k, nodes[..n], but);
      PopSteady(st1, k, nodes[n], but);
      SteadyOn(st, st1, PopAndClose(st1, k, nodes[n]), but);
    }
  }

  lemma SocketShutSteady(st: State, k: nat, but: set<nat>)
    requires k in st.sockets
    ensures Steady(st, UnrefSocket(SetSocket(st, k, st.sockets[k].(wssActive := false)), k), but)
  {
    var st1 := SetSocket(st, k, st.sockets[k].(wssActive := false));
    ObjectsSteady(st, st1.sockets, st.sessions, st.channels, st.timers, st.fault, but);
    UnrefSocketDwindles(st1, k);
    DwindlesSteady(st1, UnrefSocket(st1, k), but);
    SteadyOn(st, st1, UnrefSocket(st1, k), but);
  }

  lemma SocketCloseSteady(st: State, k: nat, but: set<nat>)
    ensures Steady(st, SocketClose(st, k), but)
  {
    if k in st.sockets && st.sockets[k].active {
      var st1 := SetSocket(st, k, st.sockets[k].(active := false));
      ObjectsSteady(st, st1.sockets, st.sessions, st.channels, st.timers, st.fault, but);
      var st2 := CloseNodes(st1, k, st.sockets[k].sessions);
      CloseNodesSteady(st1, k, st.sockets[k].sessions, but);
      SteadyOn(st, st1, st2, but);
      if k in st2.sockets {
        SocketShutSteady(st2, k, but);
        SteadyOn(st, st2, SocketClose(st, k), but);
      }
    }
  }
}
