/** The executor runs its first command, and never meets a NULL, a released object or a native
    session that is already destroyed. */
module Executing {
  import opened Wrappers
  import opened Model
  import opened Lifecycle
  import opened Invariants
  import opened Counting
  import opened Updates
  import opened Unref
  import opened Opening
  import opened Pushing

  lemma UsablePopped(exec: seq<Command>, destroyed: multiset<nat>, destroyed': multiset<nat>)
    requires Usable(exec, destroyed) && exec != []
    requires forall n :: n in destroyed' ==> n in destroyed || exec[0] == Destroy(n)
    ensures Usable(exec[1..], destroyed')
  {
    forall i: nat | i < |exec[1..]| ensures UsableAt(i, exec[1..], destroyed') {
      assert UsableAt(i + 1, exec, destroyed);
      assert exec[..i + 1] == [exec[0]] + exec[1..][..i];
    }
  }

  lemma RefPasses(tasks: seq<Task>, exec: seq<Command>, t: Task)
    requires exec != [] && TaskRef(t) == CommandRef(exec[0])
    ensures QueueRefs(tasks + [t], exec[1..]) == QueueRefs(tasks, exec)
  {
    Pushed(TaskRef, tasks, t);
    Popped(CommandRef, exec);
  }

  /** The reference of a command passes to the task that answers it. */
  lemma Answered(st: State, t: Task)
    requires Invariant(st) && st.exec != [] && TaskRef(t) == CommandRef(st.exec[0]) && !t.Event? && !t.Listening?
    ensures QueueRefs(st.tasks + [t], st.exec[1..]) == QueueRefs(st.tasks, st.exec)
    ensures ClosedLast(st.tasks + [t], st.rtc)
    ensures OpensOnce(st.sessions, st.channels, st.tasks + [t], st.openPosted)
    ensures Mapped(st.sockets, st.socketMap, st.tasks + [t])
    ensures Usable(st.exec[1..], st.destroyed)
  {
    Read(st, multiset{}, {});
    RefPasses(st.tasks, st.exec, t);
    EventPushed(st.tasks, st.rtc, t);
    OpenPushed(st.sessions, st.channels, st.tasks, st.openPosted, t);
    ListenPushed(st.sockets, st.socketMap, st.tasks, t);
    UsablePopped(st.exec, st.destroyed, st.destroyed);
  }

  /** A command refers to live objects. */
  lemma CommandLive(st: State)
    requires Invariant(st) && st.exec != []
    ensures st.exec[0].Create? ==> st.exec[0].s in st.sessions && st.sessions[st.exec[0].s].socket in st.sockets
    ensures st.exec[0].Receive? ==>
              st.exec[0].c in st.channels && st.exec[0].target.Some? && st.exec[0].target.value !in st.destroyed
    ensures st.exec[0].Destroy? ==> st.exec[0].native !in st.destroyed
  {
    var command, out := st.exec[0], QueueRefs(st.tasks, st.exec) + multiset{};
    Read(st, multiset{}, {});
    Popped(CommandRef, st.exec);
    Popped(RequestOf, st.exec);
    assert UsableAt(0, st.exec, st.destroyed);
    match command
    case Create(s) =>
      assert SessionRef(s) in out;
      assert Live(st.sockets, st.sessions, st.channels, SessionRef(s));
      assert SessionCounted(s, st.sockets, st.sessions, st.channels, st.rtc, out);
    case Receive(c, target) =>
      assert ChannelRef(c) in out;
      assert Live(st.sockets, st.sessions, st.channels, ChannelRef(c));
    case Destroy(n) =>
      assert OnePlace(n, st.sessions, st.tasks, st.exec, st.made, st.destroyed, st.lost);
  }

  lemma TransitMade(tasks: seq<Task>, s: nat, n: nat, m: nat)
    ensures Transit(tasks + [Task.Created(s, Some(n))])[m] == Transit(tasks)[m] + B(m == n)
  {
    Pushed(TransitOf, tasks, Task.Created(s, Some(n)));
  }

  lemma CreateRequestsNone(exec: seq<Command>)
    requires exec != [] && exec[0].Create?
    ensures Requested(exec[1..]) == Requested(exec)
  {
    Popped(RequestOf, exec);
  }

  lemma MadeConserved(st: State, s: nat, n: nat)
    requires Conserved(st.sessions, st.tasks, st.exec, st.made, st.destroyed, st.lost) && n !in st.made
    requires st.exec != [] && st.exec[0] == Command.Create(s)
    ensures Conserved(st.sessions, st.tasks + [Task.Created(s, Some(n))], st.exec[1..], st.made + {n}, st.destroyed,
                      st.lost)
  {
    var tasks', exec' := st.tasks + [Task.Created(s, Some(n))], st.exec[1..];
    CreateRequestsNone(st.exec);
    forall m: nat ensures OnePlace(m, st.sessions, tasks', exec', st.made + {n}, st.destroyed, st.lost) {
      assert OnePlace(m, st.sessions, st.tasks, st.exec, st.made, st.destroyed, st.lost);
      TransitMade(st.tasks, s, n, m);
    }
  }

  /** A native session on its way has no owner yet. */
  lemma MadeOwned(st: State, s: nat, n: nat)
    requires Owned(st.sessions, st.tasks, st.owners, st.made) && n !in st.made
    ensures Owned(st.sessions, st.tasks + [Task.Created(s, Some(n))], st.owners, st.made + {n})
  {
    forall m: nat ensures HandedOver(m, st.tasks + [Task.Created(s, Some(n))], st.owners, st.made + {n}) {
      assert HandedOver(m, st.tasks, st.owners, st.made);
      TransitMade(st.tasks, s, n, m);
    }
    AddressedPushed(st.tasks, st.owners, Task.Created(s, Some(n)));
  }

  lemma NativeMade(st: State, s: nat)
    requires Invariant(st) && st.exec != [] && st.exec[0] == Command.Create(s)
    ensures Invariant(st.(exec := st.exec[1..], tasks := st.tasks + [Task.Created(s, Some(st.next))],
                          made := st.made + {st.next}, next := st.next + 1))
  {
    var none: set<Ref> := {};
    var n, t := st.next, Task.Created(s, Some(st.next));
    var st' := st.(exec := st.exec[1..], tasks := st.tasks + [t], made := st.made + {n}, next := n + 1);
    Answered(st, t);
    Read(st, multiset{}, none);
    assert !Below(n, st.next);
    MadeConserved(st, s, n);
    MadeOwned(st, s, n);
    MadeFresh(st, t);
    Hold(st', multiset{}, none);
  }

  lemma MadeFresh(st: State, t: Task)
    requires Fresh(st.sockets, st.sessions, st.channels, st.socketMap, st.tasks, st.timers, st.openPosted, st.made,
                   st.next)
    requires !t.Listening?
    ensures Fresh(st.sockets, st.sessions, st.channels, st.socketMap, st.tasks + [t], st.timers, st.openPosted,
                  st.made + {st.next}, st.next + 1)
  {
    StillFresh(st, st.(next := st.next + 1));
    forall n | n in st.made + {st.next} ensures Below(n, st.next + 1) {
      if n in st.made { assert Below(n, st.next); }
    }
  }

  /** A creation that failed, or a receive that is done. */
  lemma PlainlyAnswered(st: State, t: Task)
    requires Invariant(st) && st.exec != [] && !st.exec[0].Destroy?
    requires TaskRef(t) == CommandRef(st.exec[0]) && TransitOf(t) == multiset{} && (t.Created? || t.Received?)
    ensures Invariant(st.(exec := st.exec[1..], tasks := st.tasks + [t]))
  {
    var none: set<Ref> := {};
    var st' := st.(exec := st.exec[1..], tasks := st.tasks + [t]);
    Answered(st, t);
    Read(st, multiset{}, none);
    Pushed(TransitOf, st.tasks, t);
    Popped(RequestOf, st.exec);
    NativesMove(st.sessions, st.tasks, st'.tasks, st.exec, st'.exec, st.made, st.destroyed, st.destroyed, st.lost);
    FreshPushed(st, t, st.openPosted);
    OwnedPushed(st.sessions, st.tasks, st.owners, st.made, t);
    Hold(st', multiset{}, none);
  }

  lemma NativeDestroyed(st: State, n: nat)
    requires Invariant(st) && st.exec != [] && st.exec[0] == Destroy(n)
    ensures Invariant(st.(exec := st.exec[1..], destroyed := st.destroyed + multiset{n}))
  {
    var none: set<Ref> := {};
    Read(st, multiset{}, none);
    DestroyTaken(st, n);
    Hold(st.(exec := st.exec[1..], destroyed := st.destroyed + multiset{n}), multiset{}, none);
  }

  lemma DestroyTaken(st: State, n: nat)
    requires Conserved(st.sessions, st.tasks, st.exec, st.made, st.destroyed, st.lost)
    requires Usable(st.exec, st.destroyed) && st.exec != [] && st.exec[0] == Destroy(n)
    ensures
      var exec', destroyed' := st.exec[1..], st.destroyed + multiset{n};
      && QueueRefs(st.tasks, exec') == QueueRefs(st.tasks, st.exec) && Usable(exec', destroyed')
      && Conserved(st.sessions, st.tasks, exec', st.made, destroyed', st.lost)
  {
    var exec', destroyed' := st.exec[1..], st.destroyed + multiset{n};
    Popped(CommandRef, st.exec);
    Popped(RequestOf, st.exec);
    UsablePopped(st.exec, st.destroyed, destroyed');
    NativesMove(st.sessions, st.tasks, st.tasks, st.exec, exec', st.made, st.destroyed, destroyed', st.lost);
  }

  lemma ExecuteKeeps(st: State, o: Outcome)
    requires Invariant(st) && st.exec != []
    ensures Invariant(Execute(st, o))
  {
    CommandLive(st);
    match st.exec[0]
    case Create(s) =>
      if o.native { NativeMade(st, s); } else { PlainlyAnswered(st, Task.Created(s, None)); }
    case Receive(c, _) =>
      PlainlyAnswered(st, Received(c));
    case Destroy(n) =>
      NativeDestroyed(st, n);
  }
}
