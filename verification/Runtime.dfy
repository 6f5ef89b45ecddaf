/** The plugin as the program runs it: its pools, queues and tables are updated in place, and
    lists and arrays are walked by loops. Every method computes the step it is named after. */
module Runtime {
  import opened Wrappers
  import opened Model
  import Frames
  import opened Lifecycle
  import opened Invariants
  import opened Unref
  import opened Closing
  import opened Taking
  import opened Steps

  /** The next session to be closed is as stale as it was before the loop. */
  lemma StaleNext(st: State, k: nat, i: nat, hand: multiset<Ref>, busy: set<Ref>)
    requires Inv(st, hand, busy) && k in st.sockets && SocketRef(k) in hand && forall s :: SessionRef(s) !in busy
    requires i < |st.sockets[k].sessions| && !StaleAmong(st.sockets[k].sessions[..i], st.sessions, st.channels)
    ensures
      var nodes := st.sockets[k].sessions;
      var s := nodes[i].session;
      StaleIn(CloseNodes(st, k, nodes[..i]), s) <==> StaleIn(st, s)
  {
    var nodes := st.sockets[k].sessions;
    CloseNodesKeeps(st, k, nodes[..i], hand, busy);
    LastOnce(st, k, i, hand, busy);
  }

  /** Stopping this native socket closes a stale session. */
  predicate StopHazard(st: State, native: nat) {
    native in st.socketMap && StaleOn(st, st.socketMap[native])
  }

  lemma LoopFaults(st: State, o: Outcome)
    requires Invariant(st) && st.tasks != []
    ensures Lifecycle.Loop(st, o).fault <==> TaskHazard(st, st.tasks[0])
    ensures st.tasks[0].Stopped? ==>
              (TaskHazard(st, st.tasks[0]) <==> StopHazard(st.(tasks := st.tasks[1..]), st.tasks[0].native))
  {
    LoopKeeps(st, o);
  }

  /** The first i sessions of the list have been closed, and none of them was stale. */
  ghost predicate ClosedTo(st: State, st': State, k: nat, i: nat, hand: multiset<Ref>, busy: set<Ref>) {
    && k in st.sockets && i <= |st.sockets[k].sessions|
    && var nodes := st.sockets[k].sessions;
    && st' == CloseNodes(st, k, nodes[..i]) && !StaleAmong(nodes[..i], st.sessions, st.channels)
    && Inv(st', hand, busy) && k in st'.sockets && st'.sockets[k].sessions == nodes[i..]
  }

  ghost predicate AddedTo(st: State, st': State, s: nat, i: nat) {
    s in st.sessions && s in st'.sessions && st' == Lifecycle.AddChannels(st, s, i)
  }

  lemma NoneClosed(st: State, k: nat, hand: multiset<Ref>, busy: set<Ref>)
    requires Inv(st, hand, busy) && k in st.sockets
    ensures ClosedTo(st, st, k, 0, hand, busy)
  {
  }

  lemma NodeJoins(st: State, k: nat, nodes: seq<Node>, i: nat)
    requires i < |nodes|
    ensures CloseNodes(st, k, nodes[..i + 1]) == PopAndClose(CloseNodes(st, k, nodes[..i]), k, nodes[i])
    ensures StaleAmong(nodes[..i + 1], st.sessions, st.channels)
            ==> StaleAmong(nodes[..i], st.sessions, st.channels) || StaleIn(st, nodes[i].session)
    ensures nodes[i..][1..] == nodes[i + 1..]
  {
    assert nodes[..i + 1][..i] == nodes[..i] && nodes[..i + 1][i] == nodes[i];
    if StaleAmong(nodes[..i + 1], st.sessions, st.channels) {
      StaleSplits(nodes[..i + 1], st.sessions, st.channels);
    }
  }

  lemma OneClosed(st: State, st1: State, st2: State, k: nat, i: nat, hand: multiset<Ref>, busy: set<Ref>)
    requires ClosedTo(st, st1, k, i, hand, busy) && i < |st.sockets[k].sessions|
    requires
      var node := st.sockets[k].sessions[i];
      && st2 == PopAndClose(st1, k, node) && !StaleIn(st, node.session) && Inv(st2, hand, busy)
      && k in st2.sockets && st2.sockets[k].sessions == st1.sockets[k].sessions[1..]
    ensures ClosedTo(st, st2, k, i + 1, hand, busy)
    ensures |st2.sockets[k].sessions| == |st.sockets[k].sessions| - i - 1
  {
    NodeJoins(st, k, st.sockets[k].sessions, i);
  }

  /** The session to be closed next is the one at i. */
  lemma NextToClose(st: State, st1: State, k: nat, i: nat, hand: multiset<Ref>, busy: set<Ref>)
    requires ClosedTo(st, st1, k, i, hand, busy) && SocketRef(k) in hand && forall s :: SessionRef(s) !in busy
    requires Inv(st, hand, busy) && i < |st.sockets[k].sessions|
    ensures st1.sockets[k].sessions != [] && st1.sockets[k].sessions[0] == st.sockets[k].sessions[i]
    ensures StaleIn(st1, st.sockets[k].sessions[i].session) <==> StaleIn(st, st.sockets[k].sessions[i].session)
  {
    StaleNext(st, k, i, hand, busy);
  }

  lemma AllClosed(st: State, st': State, k: nat, i: nat, hand: multiset<Ref>, busy: set<Ref>)
    requires ClosedTo(st, st', k, i, hand, busy) && st'.sockets[k].sessions == []
    ensures st' == CloseNodes(st, k, st.sockets[k].sessions) && Inv(st', hand, busy)
    ensures !StaleAmong(st.sockets[k].sessions, st.sessions, st.channels)
  {
    assert st.sockets[k].sessions[..i] == st.sockets[k].sessions;
  }

  class Plugin {
    var sockets: Sockets
    var sessions: Sessions
    var channels: Channels
    var socketMap: map<nat, nat>
    var tasks: seq<Task>
    var exec: seq<Command>
    var timers: Timers
    var owners: map<nat, nat>
    var rtc: RtcMap
    var listening: set<nat>
    var openPosted: set<nat>
    var made: set<nat>
    var destroyed: multiset<nat>
    var lost: multiset<nat>
    var ledger: Ledger
    var next: nat
    var fault: bool

    ghost function St(): State
      reads this
    {
      State(sockets, sessions, channels, socketMap, tasks, exec, timers, owners, rtc, listening, openPosted, made,
            destroyed, lost, ledger, next, fault)
    }

    constructor ()
      ensures Invariant(St()) && St() == Initial
    {
      sockets, sessions, channels, socketMap := map[], map[], map[], map[];
      tasks, exec, timers, owners, rtc := [], [], map[], map[], map[];
      listening, openPosted, made := {}, {}, {};
      destroyed, lost, ledger := multiset{}, multiset{}, Ledger({}, multiset{}, {}, map[]);
      next, fault := 0, false;
      new;
      InitiallyInvariant();
    }

    // ----- References ----------------------------------------------------------------

    method UnrefSocket(k: nat)
      modifies this
      ensures St() == Lifecycle.UnrefSocket(old(St()), k)
    {
      if k !in sockets {
        fault := true;
      } else if sockets[k].ref > 1 {
        sockets := sockets[k := sockets[k].(ref := sockets[k].ref - 1)];
      } else {
        socketMap := socketMap - {sockets[k].native};
        sockets := sockets - {k};
        ledger := Released(ledger, SocketRef(k));
      }
    }

    method DestroyNative(s: nat)
      requires s in sessions
      modifies this
      ensures St() == Lifecycle.DestroyNative(old(St()), s)
    {
      var native := sessions[s].native;
      if native.Some? {
        if listening != {} {
          exec := exec + [Destroy(native.value)];
        } else {
          lost := lost + multiset{native.value};
        }
        sessions := sessions[s := sessions[s].(native := None)];
      }
    }

    method UnscheduleTimeout(s: nat)
      requires s in sessions
      modifies this
      ensures St() == Lifecycle.UnscheduleTimeout(old(St()), s)
    {
      var timeout := sessions[s].timeout;
      if timeout.Some? {
        timers := timers - {timeout.value};
        sessions := sessions[s := sessions[s].(timeout := None)];
      }
    }

    method ReleaseSession(s: nat)
      requires s in sessions
      modifies this
      ensures St() == Lifecycle.ReleaseSession(old(St()), s)
    {
      DestroyNative(s);
      UnscheduleTimeout(s);
      var k := sessions[s].socket;
      sessions := sessions - {s};
      ledger := Released(ledger, SessionRef(s));
      UnrefSocket(k);
    }

    method UnrefSession(s: nat)
      modifies this
      ensures St() == Lifecycle.UnrefSession(old(St()), s)
    {
      if s !in sessions {
        fault := true;
      } else if sessions[s].ref > 1 {
        sessions := sessions[s := sessions[s].(ref := sessions[s].ref - 1)];
      } else {
        ReleaseSession(s);
      }
    }

    method UnrefChannel(c: nat)
      modifies this
      ensures St() == Lifecycle.UnrefChannel(old(St()), c)
    {
      if c !in channels {
        fault := true;
      } else if channels[c].ref > 1 {
        channels := channels[c := channels[c].(ref := channels[c].ref - 1)];
      } else {
        var s := channels[c].session;
        channels := channels - {c};
        ledger := Released(ledger, ChannelRef(c));
        UnrefSession(s);
      }
    }

    // ----- Closing -------------------------------------------------------------------

    method ChannelClose(c: nat)
      modifies this
      ensures St() == Lifecycle.ChannelClose(old(St()), c)
    {
      if c !in channels {
        fault := true;
      } else if channels[c].active {
        channels := channels[c := channels[c].(active := false, dcActive := false)];
        UnrefChannel(c);
      }
    }

    method CloseSlot(slot: Option<nat>)
      modifies this
      ensures St() == Lifecycle.CloseSlot(old(St()), slot)
    {
      if slot.Some? { ChannelClose(slot.value); }
    }

    method StopPing(s: nat)
      requires s in sessions
      modifies this
      ensures St() == Lifecycle.StopPing(old(St()), s)
    {
      var ping := sessions[s].ping;
      if ping.Some? {
        timers := timers - {ping.value};
        sessions := sessions[s := sessions[s].(ping := None)];
      }
    }

    method RemoveSession(s: nat)
      requires s in sessions
      modifies this
      ensures St() == Lifecycle.RemoveSession(old(St()), s)
    {
      var entry, k := sessions[s].entry, sessions[s].socket;
      if entry.Some? {
        if k !in sockets {
          fault := true;
        } else {
          sockets := sockets[k := sockets[k].(sessions := RemoveNode(sockets[k].sessions, Node(entry.value, s)))];
          sessions := sessions[s := sessions[s].(entry := None)];
        }
      }
    }

    method CloseParts(s: nat)
      modifies this
      ensures St() == Lifecycle.CloseParts(old(St()), s)
    {
      if s !in sessions {
        fault := true;
      } else {
        sessions := sessions[s := sessions[s].(wsActive := false, pcActive := false)];
        DestroyNative(s);
        RemoveSession(s);
      }
    }

    method CloseSlots(slots: seq<Option<nat>>)
      modifies this
      ensures St() == Lifecycle.CloseSlots(old(St()), slots)
    {
      var i := 0;
      while i < |slots|
        invariant 0 <= i <= |slots|
        invariant St() == Lifecycle.CloseSlots(old(St()), slots[..i])
      {
        assert slots[..i + 1][..i] == slots[..i];
        CloseSlot(slots[i]);
        i := i + 1;
      }
      assert slots[..i] == slots;
    }

    method SessionClose(s: nat)
      modifies this
      ensures St() == Lifecycle.SessionClose(old(St()), s)
    {
      if s !in sessions {
        fault := true;
      } else if sessions[s].active {
        var slots, system := sessions[s].channels, sessions[s].system;
        sessions := sessions[s := sessions[s].(active := false)];
        StopPing(s);
        CloseSlots(slots);
        CloseSlot(system);
        CloseParts(s);
        UnrefSession(s);
      }
    }

    /** Popping the first session off the list and closing it faults if and only if the session is
        stale. */
    method PopSession(k: nat, ghost hand: multiset<Ref>, ghost busy: set<Ref>)
      requires Inv(St(), hand, busy) && k in sockets && SocketRef(k) in hand && sockets[k].sessions != []
      requires forall s :: SessionRef(s) !in busy
      modifies this
      ensures St() == PopAndClose(old(St()), k, old(sockets[k].sessions[0]))
      ensures
        if StaleIn(old(St()), old(sockets[k].sessions[0].session)) then fault
        else Inv(St(), hand, busy) && k in sockets && sockets[k].sessions == old(sockets[k].sessions[1..])
    {
      NodePopped(St(), k, hand, busy);
      if StaleIn(St(), sockets[k].sessions[0].session) {
        PopAndCloseFaults(St(), k, hand, busy);
      } else {
        PopAndCloseKeeps(St(), k, hand, busy);
      }
      var s := PopFront(k);
      SessionClose(s);
    }

    method PopFront(k: nat) returns (s: nat)
      requires k in sockets && sockets[k].sessions != [] && sockets[k].sessions[0].session in sessions
      modifies this
      ensures s == old(sockets[k].sessions[0].session)
      ensures
        var st, socket := old(St()), old(sockets[k]);
        St() == SetSession(SetSocket(st, k, socket.(sessions := socket.sessions[1..])), s,
                           st.sessions[s].(entry := None))
    {
      s := sockets[k].sessions[0].session;
      sockets := sockets[k := sockets[k].(sessions := sockets[k].sessions[1..])];
      sessions := sessions[s := sessions[s].(entry := None)];
    }

    /** One turn of the loop that closes the sessions. */
    method CloseNext(k: nat, ghost st: State, ghost i: nat, ghost hand: multiset<Ref>, ghost busy: set<Ref>)
      requires ClosedTo(st, St(), k, i, hand, busy) && SocketRef(k) in hand && forall s :: SessionRef(s) !in busy
      requires Inv(st, hand, busy) && i < |st.sockets[k].sessions|
      modifies this
      ensures fault ==> StaleAmong(st.sockets[k].sessions, st.sessions, st.channels)
      ensures !fault ==> ClosedTo(st, St(), k, i + 1, hand, busy)
                         && |sockets[k].sessions| == |st.sockets[k].sessions| - i - 1
    {
      ghost var st1 := St();
      NextToClose(st, st1, k, i, hand, busy);
      assert st.sockets[k].sessions[i] in st.sockets[k].sessions;
      PopSession(k, hand, busy);
      if !fault { OneClosed(st, st1, St(), k, i, hand, busy); }
    }

    /** The sessions are popped off the list until it is empty. Closing a session reaches into
        the list it was popped from, and must not disturb the loop. Nothing is said about what
        happens behind a fault: there the loop ends. */
    method CloseSessions(k: nat, ghost hand: multiset<Ref>, ghost busy: set<Ref>)
      requires Inv(St(), hand, busy) && k in sockets && SocketRef(k) in hand && forall s :: SessionRef(s) !in busy
      modifies this
      ensures
        if StaleAmong(old(sockets[k].sessions), old(sessions), old(channels)) then fault
        else St() == CloseNodes(old(St()), k, old(sockets[k].sessions)) && Inv(St(), hand, busy) && k in sockets
             && sockets[k].sessions == []
    {
      ghost var st, i, size := St(), 0, |sockets[k].sessions|;
      NoneClosed(st, k, hand, busy);
      while !fault && sockets[k].sessions != []
        invariant i <= size
        invariant fault ==> StaleAmong(st.sockets[k].sessions, st.sessions, st.channels)
        invariant !fault ==> ClosedTo(st, St(), k, i, hand, busy) && k in sockets && |sockets[k].sessions| == size - i
        decreases size - i, !fault
      {
        CloseNext(k, st, i, hand, busy);
        i := i + 1;
      }
      if !fault { AllClosed(st, St(), k, i, hand, busy); }
    }

    method SocketClose(k: nat, ghost hand: multiset<Ref>)
      requires Inv(St(), hand, {}) && k in sockets
      modifies this
      ensures if StaleOn(old(St()), k) then fault else St() == Lifecycle.SocketClose(old(St()), k)
    {
      StaleListed(St(), k, hand);
      if sockets[k].active {
        ghost var none: set<Ref> := {};
        SocketDeactivated(St(), k, hand, none);
        sockets := sockets[k := sockets[k].(active := false)];
        CloseSessions(k, hand + multiset{SocketRef(k)}, none + {SocketRef(k)});
        if !fault { ShutWss(k); }
      }
    }

    method ShutWss(k: nat)
      requires k in sockets
      modifies this
      ensures
        var st := old(St());
        St() == Lifecycle.UnrefSocket(SetSocket(st, k, st.sockets[k].(wssActive := false)), k)
    {
      sockets := sockets[k := sockets[k].(wssActive := false)];
      UnrefSocket(k);
    }

    // ----- Opening -------------------------------------------------------------------

    method AcquireSocket(native: nat, modes: nat, o: Outcome)
      modifies this
      ensures St() == Lifecycle.AcquireSocket(old(St()), native, modes, o)
    {
      if o.acquire {
        var k := next;
        next := k + 1;
        sockets := sockets[k := Socket(2, true, true, modes, [], native)];
        socketMap := socketMap[native := k];
        rtc := rtc[Wss(k) := true];
        ledger := Acquired(ledger, SocketRef(k));
      }
    }

    method RefSocket(k: nat)
      requires k in sockets
      modifies this
      ensures St() == SetSocket(old(St()), k, old(sockets[k]).(ref := old(sockets[k].ref) + 1))
    {
      sockets := sockets[k := sockets[k].(ref := sockets[k].ref + 1)];
    }

    /** The session starts its WS and its PC. */
    method OpenSession(s: nat, x: Session)
      modifies this
      ensures
        St() == old(St()).(sessions := old(sessions)[s := x], rtc := old(rtc)[Ws(s) := true][Pc(s) := true],
                           ledger := Acquired(old(ledger), SessionRef(s)), next := s + 1)
    {
      sessions, rtc := sessions[s := x], rtc[Ws(s) := true][Pc(s) := true];
      ledger, next := Acquired(ledger, SessionRef(s)), s + 1;
    }

    method ScheduleTimeout(s: nat)
      requires s in sessions
      modifies this
      ensures St() == Lifecycle.ScheduleTimeout(old(St()), s)
    {
      timers, sessions := timers[next := Timeout(s)], sessions[s := sessions[s].(timeout := Some(next))];
      next := next + 1;
    }

    method AcquireSession(k: nat) returns (s: nat)
      requires k in sockets
      modifies this
      ensures St() == Lifecycle.AcquireSession(old(St()), k) && s == old(next) && s in sessions && k in sockets
    {
      s := next;
      RefSocket(k);
      OpenSession(s, NewSession(k, s + 1).(timeout := None));
      ScheduleTimeout(s);
    }

    method CreateSession(k: nat, o: Outcome)
      modifies this
      ensures St() == Lifecycle.CreateSession(old(St()), k, o)
    {
      if k !in sockets {
        fault := true;
      } else if o.acquire && o.timer {
        var s := AcquireSession(k);
        if o.push {
          sockets := sockets[k := sockets[k].(sessions := sockets[k].sessions + [Node(next, s)])];
          sessions := sessions[s := sessions[s].(entry := Some(next))];
          next := next + 1;
        } else {
          SessionClose(s);
        }
      }
    }

    method AcquireChannel(s: nat, index: nat) returns (c: nat)
      requires s in sessions
      modifies this
      ensures St() == Lifecycle.AcquireChannel(old(St()), s, index) && c == old(next) && s in sessions
    {
      c := next;
      var x := sessions[s].(ref := sessions[s].ref + 1, members := sessions[s].members + {c});
      channels, sessions := channels[c := Channel(2, true, true, false, index, s, false)], sessions[s := x];
      rtc, ledger, next := rtc[Dc(c) := true], Acquired(ledger, ChannelRef(c)), c + 1;
    }

    method AddChannel(s: nat, index: nat)
      requires s in sessions
      modifies this
      ensures St() == Lifecycle.AddChannel(old(St()), s, index) && s in sessions
    {
      var c := AcquireChannel(s, index);
      sessions := sessions[s := sessions[s].(channels := SetSlot(sessions[s].channels, index, Some(c)))];
    }

    method AddSystemChannel(s: nat)
      requires s in sessions
      modifies this
      ensures St() == Lifecycle.AddSystemChannel(old(St()), s) && s in sessions
    {
      var c := AcquireChannel(s, SYSTEM_INDEX);
      sessions := sessions[s := sessions[s].(system := Some(c))];
    }

    method AddNext(s: nat, i: nat, ghost st: State)
      requires AddedTo(st, St(), s, i)
      modifies this
      ensures AddedTo(st, St(), s, i + 1)
    {
      AddChannel(s, i);
    }

    /** The slots are filled one by one until no channel can be acquired. */
    method AddChannels(s: nat, n: nat, acquired: nat) returns (i: nat)
      requires s in sessions
      modifies this
      ensures i == (if acquired < n then acquired else n) && s in sessions
      ensures St() == Lifecycle.AddChannels(old(St()), s, i)
    {
      ghost var st := St();
      i := 0;
      while i < n && i < acquired
        invariant 0 <= i <= n && i <= acquired && AddedTo(st, St(), s, i)
      {
        AddNext(s, i, st);
        i := i + 1;
      }
    }

    method CreateChannels(s: nat, o: Outcome) returns (ok: bool)
      requires s in sessions
      modifies this
      ensures Creation(St(), ok) == Lifecycle.CreateChannels(old(St()), s, o) && s in sessions
    {
      ok := false;
      var k := sessions[s].socket;
      if k !in sockets {
        fault := true;
      } else if o.resize {
        var n := sockets[k].modes;
        sessions := sessions[s := sessions[s].(channels := seq(n, _ => None))];
        var count := AddChannels(s, n, o.acquired);
        if count == n && o.acquired > n {
          AddSystemChannel(s);
          ok := true;
        }
      }
    }

    // ----- The handshake -------------------------------------------------------------

    method OnAuthResult(s: nat, token: Option<int>, o: Outcome)
      requires s in sessions
      modifies this
      ensures St() == Lifecycle.OnAuthResult(old(St()), s, token, o)
    {
      UnscheduleTimeout(s);
      if token.None? {
        SessionClose(s);
        return;
      }
      var ok := CreateChannels(s, o);
      if !ok {
        SessionClose(s);
      } else if token.value > 0 {
        if o.timer { ScheduleTimeout(s); } else { SessionClose(s); }
      }
    }

    method WsAuthResult(s: nat, token: Option<int>, o: Outcome)
      requires s in sessions
      modifies this
      ensures St() == Lifecycle.WsAuthResult(old(St()), s, token, o)
    {
      sessions := sessions[s := WithResult(sessions[s], token)];
      OnAuthResult(s, token, o);
    }

    method PluginOpen(s: nat)
      requires s in sessions
      modifies this
      ensures St() == Lifecycle.PluginOpen(old(St()), s)
    {
      CountOpening(s);
      if sessions[s].native.Some? {
        fault := true;
      } else if listening != {} {
        RefSession(s);
        exec := exec + [Command.Create(s)];
      }
    }

    method CountOpening(s: nat)
      requires s in sessions
      modifies this
      ensures St() == SetSession(old(St()), s, old(sessions[s]).(openings := old(sessions[s].openings) + 1))
    {
      sessions := sessions[s := sessions[s].(openings := sessions[s].openings + 1)];
    }

    method RefSession(s: nat)
      requires s in sessions
      modifies this
      ensures St() == SetSession(old(St()), s, old(sessions[s]).(ref := old(sessions[s].ref) + 1))
    {
      sessions := sessions[s := sessions[s].(ref := sessions[s].ref + 1)];
    }

    method OnReady(s: nat)
      requires s in sessions
      modifies this
      ensures St() == Lifecycle.OnReady(old(St()), s)
    {
      UnscheduleTimeout(s);
      PluginOpen(s);
    }

    method RecvReady(s: nat)
      requires s in sessions
      modifies this
      ensures St() == Lifecycle.RecvReady(old(St()), s)
    {
      if !sessions[s].readyReceived {
        sessions := sessions[s := sessions[s].(readyReceived := true)];
        if sessions[s].allOpened { OnReady(s); }
      }
    }

    method StartPing(s: nat, o: Outcome)
      requires s in sessions
      modifies this
      ensures St() == Lifecycle.StartPing(old(St()), s, o) && s in sessions
    {
      if o.timer {
        ledger := Pinging(ledger, s, sessions[s].active, next);
        timers, sessions := timers[next := Ping(s)], sessions[s := sessions[s].(ping := Some(next))];
        next := next + 1;
      } else {
        sessions := sessions[s := sessions[s].(ping := None)];
      }
    }

    method OnAllOpened(s: nat, o: Outcome)
      requires s in sessions
      modifies this
      ensures St() == Lifecycle.OnAllOpened(old(St()), s, o)
    {
      StartPing(s, o);
      sessions := sessions[s := sessions[s].(allOpened := true)];
      if sessions[s].readyReceived { OnReady(s); }
    }

    method OnChannelOpened(s: nat, c: nat, o: Outcome)
      modifies this
      ensures St() == Lifecycle.OnChannelOpened(old(St()), s, c, o)
    {
      if s !in sessions {
        fault := true;
        return;
      }
      var x := sessions[s];
      sessions := sessions[s := x.(openCount := x.openCount + 1, openedBy := x.openedBy + {c})];
      if x.openCount + 1 == |x.channels| + 1 { OnAllOpened(s, o); }
    }

    method EnableReceiving(slot: Option<nat>)
      modifies this
      ensures St() == Lifecycle.EnableReceiving(old(St()), slot)
    {
      if slot.None? || slot.value !in channels {
        fault := true;
      } else {
        channels := channels[slot.value := channels[slot.value].(dcReceive := true)];
      }
    }

    method EnableSlots(slots: seq<Option<nat>>)
      modifies this
      ensures St() == Lifecycle.EnableSlots(old(St()), slots)
    {
      var i := 0;
      while i < |slots|
        invariant 0 <= i <= |slots|
        invariant St() == Lifecycle.EnableSlots(old(St()), slots[..i])
      {
        assert slots[..i + 1][..i] == slots[..i];
        EnableReceiving(slots[i]);
        i := i + 1;
      }
      assert slots[..i] == slots;
    }

    method OnConnected(s: nat)
      requires s in sessions
      modifies this
      ensures St() == Lifecycle.OnConnected(old(St()), s)
    {
      var x := sessions[s];
      EnableSlots(x.channels);
      EnableReceiving(x.system);
    }

    method OnCreated(s: nat, native: Option<nat>)
      modifies this
      ensures St() == Lifecycle.OnCreated(old(St()), s, native)
    {
      if s !in sessions {
        fault := true;
      } else if native.None? {
        SessionClose(s);
      } else {
        sessions := sessions[s := sessions[s].(native := native)];
        owners := owners[native.value := s];
        OnConnected(s);
      }
    }

    method ChannelReceive(c: nat)
      requires c in channels
      modifies this
      ensures St() == Lifecycle.ChannelReceive(old(St()), c)
    {
      var s := channels[c].session;
      if s !in sessions {
        fault := true;
      } else if listening != {} {
        channels := channels[c := channels[c].(ref := channels[c].ref + 1)];
        exec := exec + [Receive(c, sessions[s].native)];
      }
    }

    // ----- The tasks of the event loop -----------------------------------------------

    method WssEvent(k: nat, what: RtcEvent, o: Outcome)
      modifies this
      ensures St() == Lifecycle.WssEvent(old(St()), k, what, o)
    {
      match what
      case Client =>
        if k !in sockets {
          fault := true;
        } else if sockets[k].wssActive {
          CreateSession(k, o);
        }
      case Closed => UnrefSocket(k);
      case _ =>
    }

    method ProcessMessage(s: nat, raw: seq<char>, o: Outcome)
      requires s in sessions
      modifies this
      ensures St() == Lifecycle.ProcessMessage(old(St()), s, raw, o)
    {
      match Frames.Dispatch(sessions[s].authenticated, raw)
      case Auth(_) => WsAuthResult(s, o.token, o);
      case Ready => RecvReady(s);
      case Overread => fault := true;
      case _ =>
    }

    method WsEvent(s: nat, what: RtcEvent, o: Outcome)
      modifies this
      ensures St() == Lifecycle.WsEvent(old(St()), s, what, o)
    {
      if s in sessions {
        match what
        case Message(raw) => if sessions[s].wsActive { ProcessMessage(s, raw, o); }
        case Closed =>
          SessionClose(s);
          UnrefSession(s);
        case _ =>
      }
    }

    method DataChannelArrived(s: nat, index: nat)
      requires s in sessions
      modifies this
      ensures St() == Lifecycle.DataChannelArrived(old(St()), s, index)
    {
      var slots := sessions[s].channels;
      if index < |slots| && slots[index].Some? {
        var c := slots[index].value;
        if c !in channels {
          fault := true;
        } else {
          channels := channels[c := channels[c].(incoming := true)];
        }
      }
    }

    method PcEvent(s: nat, what: RtcEvent)
      modifies this
      ensures St() == Lifecycle.PcEvent(old(St()), s, what)
    {
      match what
      case LocalCandidate => if s !in sessions { fault := true; }
      case StateChange(lost) => if lost && s !in sessions { fault := true; }
      case DataChannel(valid, index) =>
        if s !in sessions {
          fault := true;
        } else if valid {
          DataChannelArrived(s, index);
        } else {
          SessionClose(s);
        }
      case Closed =>
        SessionClose(s);
        UnrefSession(s);
      case _ =>
    }

    method RemoveChannel(s: nat, index: nat)
      modifies this
      ensures St() == Lifecycle.RemoveChannel(old(St()), s, index)
    {
      if s !in sessions {
        fault := true;
      } else {
        sessions := sessions[s := sessions[s].(channels := SetSlot(sessions[s].channels, index, None))];
      }
    }

    method DcMessage(c: nat)
      requires c in channels
      modifies this
      ensures St() == Lifecycle.DcMessage(old(St()), c)
    {
      var x := channels[c];
      if x.incoming && x.dcActive && x.dcReceive {
        if x.session !in sessions {
          fault := true;
        } else if sessions[x.session].system != Some(c) {
          ChannelReceive(c);
        }
      }
    }

    method DcEvent(c: nat, what: RtcEvent, o: Outcome)
      modifies this
      ensures St() == Lifecycle.DcEvent(old(St()), c, what, o)
    {
      if c in channels {
        match what
        case Open => OnChannelOpened(channels[c].session, c, o);
        case Error => ChannelClose(c);
        case Message(_) => DcMessage(c);
        case Closed =>
          ledger := Straying(ledger, c, channels[c]);
          RemoveChannel(channels[c].session, channels[c].index);
          UnrefChannel(c);
        case _ =>
      }
    }

    method RtcTask(source: Rtc, what: RtcEvent, o: Outcome)
      modifies this
      ensures St() == Lifecycle.RtcTask(old(St()), source, what, o)
    {
      if what.Closed? { rtc := rtc - {source}; }
      match source
      case Wss(k) => WssEvent(k, what, o);
      case Ws(s) => WsEvent(s, what, o);
      case Pc(s) => PcEvent(s, what);
      case Dc(c) => DcEvent(c, what, o);
    }

    method DeliverTo(native: nat, index: nat)
      modifies this
      ensures St() == Lifecycle.DeliverTo(old(St()), native, index)
    {
      if native in destroyed || native !in owners || owners[native] !in sessions {
        fault := true;
      } else {
        var slots := sessions[owners[native]].channels;
        if index < |slots| && slots[index].Some? && slots[index].value !in channels { fault := true; }
      }
    }

    method OnStopped(native: nat)
      requires Inv(St(), multiset{}, {})
      modifies this
      ensures StopHazard(old(St()), native) ==> fault
      ensures !StopHazard(old(St()), native) ==>
                St() == if native in old(socketMap) then Lifecycle.SocketClose(old(St()), old(socketMap)[native])
                        else old(St())
    {
      if native in socketMap {
        assert Holds(Maps, St(), multiset{}, {});
        assert MapsToLive(native, sockets, socketMap);
        SocketClose(socketMap[native], multiset{});
      }
    }

    method RunTask(t: Task, o: Outcome)
      requires t.Stopped? ==> Inv(St(), multiset{}, {})
      modifies this
      ensures t.Stopped? && StopHazard(old(St()), t.native) ==> fault
      ensures !(t.Stopped? && StopHazard(old(St()), t.native)) ==> St() == Lifecycle.RunTask(old(St()), t, o)
    {
      match t
      case Event(source, what) => RtcTask(source, what, o);
      case Listening(native, modes) => AcquireSocket(native, modes, o);
      case Stopped(native) => OnStopped(native);
      case Disconnect(native) =>
        if native !in destroyed && native in owners { SessionClose(owners[native]); } else { fault := true; }
      case Deliver(native, index) => DeliverTo(native, index);
      case Created(s, native) =>
        OnCreated(s, native);
        UnrefSession(s);
      case Received(c) => UnrefChannel(c);
    }

    method TakeTask() returns (t: Task)
      requires Invariant(St()) && tasks != []
      modifies this
      ensures t == old(tasks[0]) && St() == old(St()).(tasks := old(tasks)[1..])
      ensures t.Stopped? ==> Inv(St(), multiset{}, {})
    {
      t := tasks[0];
      if t.Stopped? { PlainTaken(St()); }
      tasks := tasks[1..];
    }

    /** The loop takes its first task and runs it. */
    method Loop(o: Outcome)
      requires Invariant(St()) && tasks != []
      modifies this
      ensures fault <==> TaskHazard(old(St()), old(tasks[0]))
      ensures !fault ==> St() == Lifecycle.Loop(old(St()), o)
    {
      ghost var st := St();
      LoopFaults(st, o);
      var t := TakeTask();
      RunTask(t, o);
    }

    // ----- The executor, the worker and the timers -----------------------------------

    method Execute(o: Outcome)
      requires exec != []
      modifies this
      ensures St() == Lifecycle.Execute(old(St()), o)
    {
      var command := exec[0];
      exec := exec[1..];
      match command
      case Create(s) => CreateNative(s, o);
      case Receive(c, target) =>
        if c !in channels || target.None? || target.value in destroyed {
          fault := true;
        } else {
          tasks := tasks + [Received(c)];
        }
      case Destroy(native) =>
        if native in destroyed { fault := true; } else { destroyed := destroyed + multiset{native}; }
    }

    method CreateNative(s: nat, o: Outcome)
      modifies this
      ensures St() == RunCommand(old(St()), Command.Create(s), o)
    {
      if s !in sessions || sessions[s].socket !in sockets {
        fault := true;
      } else if o.native {
        tasks, made := tasks + [Task.Created(s, Some(next))], made + {next};
        next := next + 1;
      } else {
        tasks := tasks + [Task.Created(s, None)];
      }
    }

    method CloseProcess(k: nat)
      modifies this
      ensures St() == Lifecycle.CloseProcess(old(St()), k)
    {
      if k !in sockets {
        fault := true;
      } else {
        rtc, tasks := rtc[Wss(k) := false], tasks + [Event(Wss(k), Closed)];
      }
    }

    method Fire(t: nat)
      requires t in timers
      modifies this
      ensures St() == Lifecycle.Fire(old(St()), t)
    {
      var s := timers[t].s;
      if s !in sessions {
        fault := true;
      } else if timers[t].Timeout? {
        UnscheduleTimeout(s);
        SessionClose(s);
      } else if sessions[s].system.None? || sessions[s].system.value !in channels {
        fault := true;
      }
    }

    method Post(source: Rtc, what: RtcEvent)
      modifies this
      ensures St() == PostEvent(old(St()), source, what)
    {
      tasks := tasks + [Event(source, what)];
      if what.Closed? { rtc := rtc[source := false]; }
      if source.Dc? && what.Open? { openPosted := openPosted + {source.c}; }
    }

    /** Every step of the program is the step of the model unless it is a hazard, and then it
        keeps the invariant. */
    method Advance(step: Step)
      requires Invariant(St()) && Enabled(St(), step)
      modifies this
      ensures fault <==> Hazard(old(St()), step)
      ensures !fault ==> St() == Next(old(St()), step) && Invariant(St())
    {
      NextKeeps(St(), step);
      match step
      case Post(source, what) => Post(source, what);
      case Listen(modes) =>
        tasks, listening := tasks + [Listening(next, modes)], listening + {next};
        next := next + 1;
      case Stop(native) => tasks, listening := tasks + [Stopped(native)], listening - {native};
      case Kick(native) => tasks := tasks + [Disconnect(native)];
      case Call(native, index) => tasks := tasks + [Deliver(native, index)];
      case AskRtt(native) =>
        if native in destroyed || native !in owners || owners[native] !in sessions { fault := true; }
      case LoopStep(o) => Loop(o);
      case ExecStep(o) => Execute(o);
      case WorkerStep(k) => CloseProcess(k);
      case TimerStep(t) => Fire(t);
    }
  }
}
