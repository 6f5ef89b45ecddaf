/** How the sets and multisets of the invariant change with the maps and queues below them. */
module Counting {
  import opened Wrappers
  import opened Model
  import opened Invariants

  lemma SessionsOfUpdate(sessions: Sessions, s: nat, x: Session)
    requires s in sessions && x.socket == sessions[s].socket
    ensures forall k :: |SessionsOf(sessions[s := x], k)| == |SessionsOf(sessions, k)|
  {
    forall k ensures |SessionsOf(sessions[s := x], k)| == |SessionsOf(sessions, k)| {
      assert SessionsOf(sessions[s := x], k) == SessionsOf(sessions, k);
    }
  }

  /** A set that takes in one element, or does not. */
  lemma TakesIn<T>(before: set<T>, after: set<T>, x: T, b: bool)
    requires x !in before && forall y :: y in after <==> y in before || (y == x && b)
    ensures |after| == |before| + B(b)
  {
    assert after == if b then before + {x} else before;
  }

  lemma SessionsOfAdd(sessions: Sessions, s: nat, x: Session)
    requires s !in sessions
    ensures forall k :: |SessionsOf(sessions[s := x], k)| == |SessionsOf(sessions, k)| + B(x.socket == k)
  {
    forall k ensures |SessionsOf(sessions[s := x], k)| == |SessionsOf(sessions, k)| + B(x.socket == k) {
      TakesIn(SessionsOf(sessions, k), SessionsOf(sessions[s := x], k), s, x.socket == k);
    }
  }

  lemma SessionsOfRemove(sessions: Sessions, s: nat)
    requires s in sessions
    ensures forall k :: |SessionsOf(sessions - {s}, k)| == |SessionsOf(sessions, k)| - B(sessions[s].socket == k)
  {
    forall k
      ensures |SessionsOf(sessions - {s}, k)| == |SessionsOf(sessions, k)| - B(sessions[s].socket == k)
    {
      TakesIn(SessionsOf(sessions - {s}, k), SessionsOf(sessions, k), s, sessions[s].socket == k);
    }
  }

  lemma ChannelsOfUpdate(channels: Channels, c: nat, x: Channel)
    requires c in channels && x.session == channels[c].session
    ensures forall s :: |ChannelsOf(channels[c := x], s)| == |ChannelsOf(channels, s)|
  {
    forall s ensures |ChannelsOf(channels[c := x], s)| == |ChannelsOf(channels, s)| {
      assert ChannelsOf(channels[c := x], s) == ChannelsOf(channels, s);
    }
  }

  lemma ChannelsOfAdd(channels: Channels, c: nat, x: Channel)
    requires c !in channels
    ensures forall s :: |ChannelsOf(channels[c := x], s)| == |ChannelsOf(channels, s)| + B(x.session == s)
  {
    forall s ensures |ChannelsOf(channels[c := x], s)| == |ChannelsOf(channels, s)| + B(x.session == s) {
      TakesIn(ChannelsOf(channels, s), ChannelsOf(channels[c := x], s), c, x.session == s);
    }
  }

  lemma ChannelsOfRemove(channels: Channels, c: nat)
    requires c in channels
    ensures forall s :: |ChannelsOf(channels - {c}, s)| == |ChannelsOf(channels, s)| - B(channels[c].session == s)
  {
    forall s
      ensures |ChannelsOf(channels - {c}, s)| == |ChannelsOf(channels, s)| - B(channels[c].session == s)
    {
      TakesIn(ChannelsOf(channels - {c}, s), ChannelsOf(channels, s), c, channels[c].session == s);
    }
  }

  lemma HoldersOfUpdate(sessions: Sessions, s: nat, x: Session)
    requires s in sessions
    ensures forall n: nat ::
              |HoldersOf(sessions[s := x], n)| + NativeOf(sessions[s])[n] == |HoldersOf(sessions, n)| + NativeOf(x)[n]
  {
    forall n: nat
      ensures |HoldersOf(sessions[s := x], n)| + NativeOf(sessions[s])[n]
              == |HoldersOf(sessions, n)| + NativeOf(x)[n]
    {
      var rest := HoldersOf(sessions, n) - {s};
      assert HoldersOf(sessions, n) == rest + if sessions[s].native == Some(n) then {s} else {};
      assert HoldersOf(sessions[s := x], n) == rest + if x.native == Some(n) then {s} else {};
    }
  }

  lemma HoldersOfAdd(sessions: Sessions, s: nat, x: Session)
    requires s !in sessions && x.native.None?
    ensures forall n: nat :: HoldersOf(sessions[s := x], n) == HoldersOf(sessions, n)
  {
    forall n: nat ensures HoldersOf(sessions[s := x], n) == HoldersOf(sessions, n) {}
  }

  lemma HoldersOfRemove(sessions: Sessions, s: nat)
    requires s in sessions && sessions[s].native.None?
    ensures forall n: nat :: HoldersOf(sessions - {s}, n) == HoldersOf(sessions, n)
  {
    forall n: nat ensures HoldersOf(sessions - {s}, n) == HoldersOf(sessions, n) {}
  }

  // ----- Queues ------------------------------------------------------------------------

  lemma Pushed<T, R>(of: T -> multiset<R>, queue: seq<T>, x: T)
    ensures Gather(of, queue + [x]) == Gather(of, queue) + of(x)
  {
    assert (queue + [x])[..|queue|] == queue;
  }

  lemma {:induction false} Popped<T, R>(of: T -> multiset<R>, queue: seq<T>)
    requires queue != []
    ensures Gather(of, queue) == of(queue[0]) + Gather(of, queue[1..])
  {
    var n := |queue| - 1;
    if n > 0 {
      Popped(of, queue[..n]);
      assert queue[1..][..n - 1] == queue[..n][1..];
    }
  }

  lemma {:induction false} Carried<T, R>(of: T -> multiset<R>, queue: seq<T>, x: T)
    requires x in queue
    ensures of(x) <= Gather(of, queue)
  {
    var n := |queue| - 1;
    if queue[n] != x {
      Carried(of, queue[..n], x);
    }
  }
}
