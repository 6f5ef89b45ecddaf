/** Putting a task at the end of the queue. */
module Pushing {
  import opened Wrappers
  import opened Model
  import opened Lifecycle
  import opened Invariants
  import opened Counting
  import opened Updates
  import opened Unref
  import opened Opening

  /** The outside world once this task was posted. */
  function RtcPosted(t: Task, rtc: RtcMap): RtcMap {
    if t.Event? && t.what.Closed? then rtc[t.source := false] else rtc
  }

  predicate IsOpen(t: Task) {
    t.Event? && t.source.Dc? && t.what.Open?
  }

  function OpensPosted(t: Task, openPosted: set<nat>): set<nat> {
    if IsOpen(t) then openPosted + {t.source.c} else openPosted
  }

  /** What may be posted: an rtc object posts until it has posted its closed event, and a data
      channel opens once; a native session is addressed once it was made. */
  ghost predicate Postable(t: Task, st: State) {
    && (t.Event? ==> t.source in st.rtc && st.rtc[t.source])
    && (IsOpen(t) ==> t.source.c !in st.openPosted)
    && (t.Disconnect? || t.Deliver? ==> t.native in st.made)
    && !t.Listening?
  }

  lemma SameOutside(sockets: Sockets, sessions: Sessions, channels: Channels, rtc: RtcMap, rtc': RtcMap,
                    out: multiset<Ref>)
    requires Counted(sockets, sessions, channels, rtc, out) && rtc'.Keys == rtc.Keys
    ensures Counted(sockets, sessions, channels, rtc', out)
  {
    assert forall x :: x in rtc' <==> x in rtc;
    forall k | k in sockets ensures SocketCounted(k, sockets, sessions, rtc', out) {
      assert SocketCounted(k, sockets, sessions, rtc, out);
    }
    forall s | s in sessions ensures SessionCounted(s, sockets, sessions, channels, rtc', out) {
      assert SessionCounted(s, sockets, sessions, channels, rtc, out);
    }
    forall c | c in channels ensures ChannelCounted(c, sessions, channels, rtc', out) {
      assert ChannelCounted(c, sessions, channels, rtc, out);
    }
  }

  lemma EventPushed(tasks: seq<Task>, rtc: RtcMap, t: Task)
    requires ClosedLast(tasks, rtc) && (t.Event? ==> t.source in rtc && rtc[t.source])
    ensures ClosedLast(tasks + [t], RtcPosted(t, rtc))
  {
    var tasks', rtc' := tasks + [t], RtcPosted(t, rtc);
    forall j: nat | j < |tasks| ensures t.Event? ==> tasks[j] != Event(t.source, Closed) {
      assert NoneAfterClosed(j, tasks, rtc);
    }
    forall i: nat | i < |tasks'| ensures NoneAfterClosed(i, tasks', rtc') {
      if i < |tasks| {
        assert NoneAfterClosed(i, tasks, rtc);
        assert tasks'[..i] == tasks[..i];
      } else {
        assert tasks'[..i] == tasks;
      }
    }
    forall x ensures ClosedPosted(x, tasks', rtc') {
      assert ClosedPosted(x, tasks, rtc);
      if x in rtc' && !rtc'[x] && (x !in rtc || rtc[x]) {
        assert t == Event(x, Closed);
        assert tasks'[|tasks|] == Event(x, Closed);
      }
    }
  }

  lemma OpenPushed(sessions: Sessions, channels: Channels, tasks: seq<Task>, openPosted: set<nat>, t: Task)
    requires OpensOnce(sessions, channels, tasks, openPosted)
    requires IsOpen(t) ==> t.source.c !in openPosted
    ensures OpensOnce(sessions, channels, tasks + [t], OpensPosted(t, openPosted))
  {
    var tasks', openPosted' := tasks + [t], OpensPosted(t, openPosted);
    forall j: nat | j < |tasks| ensures IsOpen(t) ==> tasks[j] != t {
      assert OpensFirst(j, sessions, tasks, openPosted);
    }
    forall i: nat | i < |tasks'| ensures OpensFirst(i, sessions, tasks', openPosted') {
      if i < |tasks| {
        assert OpensFirst(i, sessions, tasks, openPosted);
        assert tasks'[..i] == tasks[..i];
      } else {
        assert tasks'[..i] == tasks;
      }
    }
    forall s | s in sessions ensures sessions[s].openedBy <= openPosted' {
      assert sessions[s].openedBy <= openPosted;
    }
  }

  lemma ListenPushed(sockets: Sockets, socketMap: map<nat, nat>, tasks: seq<Task>, t: Task)
    requires Mapped(sockets, socketMap, tasks)
    requires t.Listening? ==>
               t.modes <= SYSTEM_INDEX && t.native !in socketMap && forall m :: Listening(t.native, m) !in tasks
    ensures Mapped(sockets, socketMap, tasks + [t])
  {
    var tasks' := tasks + [t];
    forall i: nat | i < |tasks'| ensures ListensFirst(i, socketMap, tasks') {
      if i < |tasks| {
        assert ListensFirst(i, socketMap, tasks);
        assert tasks'[..i] == tasks[..i];
      } else {
        assert tasks'[..i] == tasks;
      }
    }
  }

  lemma ProgressPushed(sessions: Sessions, tasks: seq<Task>, exec: seq<Command>, t: Task)
    requires Progressing(sessions, QueueRefs(tasks, exec)) && TaskRef(t) == multiset{}
    ensures Progressing(sessions, QueueRefs(tasks + [t], exec))
    ensures QueueRefs(tasks + [t], exec) == QueueRefs(tasks, exec)
  {
    Pushed(TaskRef, tasks, t);
    assert QueueRefs(tasks + [t], exec) == QueueRefs(tasks, exec);
  }

  lemma TransitPushed(st: State, t: Task)
    requires Conserved(st.sessions, st.tasks, st.exec, st.made, st.destroyed, st.lost)
    requires TransitOf(t) == multiset{}
    ensures Conserved(st.sessions, st.tasks + [t], st.exec, st.made, st.destroyed, st.lost)
  {
    Pushed(TransitOf, st.tasks, t);
    NativesMove(st.sessions, st.tasks, st.tasks + [t], st.exec, st.exec, st.made, st.destroyed, st.destroyed, st.lost);
  }

  /** Only the last of the tasks is new. */
  lemma AddressedPushed(tasks: seq<Task>, owners: map<nat, nat>, t: Task)
    requires forall i: nat {:trigger AddressedAt(i, tasks, owners)} :: i < |tasks| ==> AddressedAt(i, tasks, owners)
    requires t.Disconnect? || t.Deliver? ==> t.native in owners || Transit(tasks)[t.native] > 0
    ensures forall i: nat {:trigger AddressedAt(i, tasks + [t], owners)} :: i < |tasks + [t]| ==>
              AddressedAt(i, tasks + [t], owners)
  {
    forall i: nat | i < |tasks + [t]| ensures AddressedAt(i, tasks + [t], owners) {
      if i < |tasks| {
        assert AddressedAt(i, tasks, owners);
        assert (tasks + [t])[..i] == tasks[..i];
      } else {
        assert (tasks + [t])[..i] == tasks;
      }
    }
  }

  lemma OwnedPushed(sessions: Sessions, tasks: seq<Task>, owners: map<nat, nat>, made: set<nat>, t: Task)
    requires Owned(sessions, tasks, owners, made) && TransitOf(t) == multiset{}
    requires t.Disconnect? || t.Deliver? ==> t.native in made
    ensures Owned(sessions, tasks + [t], owners, made)
  {
    Pushed(TransitOf, tasks, t);
    forall n: nat ensures HandedOver(n, tasks + [t], owners, made) {
      assert HandedOver(n, tasks, owners, made);
    }
    if t.Disconnect? || t.Deliver? { assert HandedOver(t.native, tasks, owners, made); }
    AddressedPushed(tasks, owners, t);
  }

  lemma FreshPushed(st: State, t: Task, openPosted': set<nat>)
    requires Fresh(st.sockets, st.sessions, st.channels, st.socketMap, st.tasks, st.timers, st.openPosted, st.made,
                   st.next)
    requires !t.Listening? && forall n :: n in openPosted' ==> n in st.openPosted || n in st.channels
    ensures Fresh(st.sockets, st.sessions, st.channels, st.socketMap, st.tasks + [t], st.timers, openPosted', st.made,
                  st.next)
  {
    forall n | n in openPosted' ensures Below(n, st.next) {}
  }

  /** A task that carries no reference. */
  lemma PostKeeps(st: State, t: Task, listening': set<nat>)
    requires Invariant(st) && Postable(t, st) && TaskRef(t) == multiset{}
    ensures Invariant(st.(tasks := st.tasks + [t], rtc := RtcPosted(t, st.rtc),
                          openPosted := OpensPosted(t, st.openPosted), listening := listening'))
  {
    var none: set<Ref> := {};
    var rtc' := RtcPosted(t, st.rtc);
    Read(st, multiset{}, none);
    ProgressPushed(st.sessions, st.tasks, st.exec, t);
    SameOutside(st.sockets, st.sessions, st.channels, st.rtc, rtc', QueueRefs(st.tasks, st.exec) + multiset{});
    RtcGrowsSlots(st.sessions, st.channels, st.rtc, rtc', none);
    EventPushed(st.tasks, st.rtc, t);
    OpenPushed(st.sessions, st.channels, st.tasks, st.openPosted, t);
    ListenPushed(st.sockets, st.socketMap, st.tasks, t);
    TransitPushed(st, t);
    OwnedPushed(st.sessions, st.tasks, st.owners, st.made, t);
    if IsOpen(t) {
      assert RtcRef(t.source) == ChannelRef(t.source.c);
      assert Live(st.sockets, st.sessions, st.channels, RtcRef(t.source));
    }
    FreshPushed(st, t, OpensPosted(t, st.openPosted));
    SameBooks(st.sockets, st.sessions, st.channels, st.sockets, st.sessions, st.channels, st.rtc, rtc', st.ledger,
              st.next, st.next);
    Hold(st.(tasks := st.tasks + [t], rtc := rtc', openPosted := OpensPosted(t, st.openPosted),
             listening := listening'), multiset{}, none);
  }

  lemma ListenKeeps(st: State, modes: nat)
    requires Invariant(st) && modes <= SYSTEM_INDEX
    ensures Invariant(st.(tasks := st.tasks + [Listening(st.next, modes)], listening := st.listening + {st.next},
                          next := st.next + 1))
  {
    var none: set<Ref> := {};
    var t := Listening(st.next, modes);
    Read(st, multiset{}, none);
    Unused(st, st.next, multiset{}, none);
    ProgressPushed(st.sessions, st.tasks, st.exec, t);
    EventPushed(st.tasks, st.rtc, t);
    OpenPushed(st.sessions, st.channels, st.tasks, st.openPosted, t);
    ListenPushed(st.sockets, st.socketMap, st.tasks, t);
    TransitPushed(st, t);
    OwnedPushed(st.sessions, st.tasks, st.owners, st.made, t);
    StillFresh(st, st.(next := st.next + 1));
    Hold(st.(tasks := st.tasks + [t], listening := st.listening + {st.next}, next := st.next + 1), multiset{}, none);
  }
}
