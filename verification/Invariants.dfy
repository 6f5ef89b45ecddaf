/** What every state between two steps satisfies, in layers. A layer takes only the parts of
    the state it speaks about. `hand` holds the references that running code has in hand, and
    `busy` the objects whose closing is under way. */
module Invariants {
  import opened Wrappers
  import opened Model
  import opened Lifecycle

  function B(b: bool): nat { if b then 1 else 0 }

  function SessionsOf(sessions: Sessions, k: nat): set<nat> {
    set s | s in sessions && sessions[s].socket == k
  }

  function ChannelsOf(channels: Channels, s: nat): set<nat> {
    set c | c in channels && channels[c].session == s
  }

  function HoldersOf(sessions: Sessions, n: nat): set<nat> {
    set s | s in sessions && sessions[s].native == Some(n)
  }

  // ----- References carried by the queues ----------------------------------------------

  function TaskRef(t: Task): multiset<Ref> {
    match t
    case Created(s, _) => multiset{SessionRef(s)}
    case Received(c) => multiset{ChannelRef(c)}
    case _ => multiset{}
  }

  function CommandRef(command: Command): multiset<Ref> {
    match command
    case Create(s) => multiset{SessionRef(s)}
    case Receive(c, _) => multiset{ChannelRef(c)}
    case Destroy(_) => multiset{}
  }

  function TransitOf(t: Task): multiset<nat> {
    if t.Created? && t.created.Some? then multiset{t.created.value} else multiset{}
  }

  function RequestOf(command: Command): multiset<nat> {
    if command.Destroy? then multiset{command.native} else multiset{}
  }

  function NativeOf(x: Session): multiset<nat> {
    if x.native.Some? then multiset{x.native.value} else multiset{}
  }

  /** All that the elements of a queue carry. */
  function Gather<T, R>(of: T -> multiset<R>, queue: seq<T>): multiset<R> {
    if queue == [] then multiset{} else Gather(of, queue[..|queue| - 1]) + of(queue[|queue| - 1])
  }

  function QueueRefs(tasks: seq<Task>, exec: seq<Command>): multiset<Ref> {
    Gather(TaskRef, tasks) + Gather(CommandRef, exec)
  }

  /** Native sessions created and not yet handed to their session. */
  function Transit(tasks: seq<Task>): multiset<nat> {
    Gather(TransitOf, tasks)
  }

  /** Native sessions the executor still has to destroy. */
  function Requested(exec: seq<Command>): multiset<nat> {
    Gather(RequestOf, exec)
  }

  // ----- Layers ------------------------------------------------------------------------

  predicate Live(sockets: Sockets, sessions: Sessions, channels: Channels, r: Ref) {
    match r
    case SocketRef(k) => k in sockets
    case SessionRef(s) => s in sessions
    case ChannelRef(c) => c in channels
  }

  function RtcRef(x: Rtc): Ref {
    match x
    case Wss(k) => SocketRef(k)
    case Ws(s) => SessionRef(s)
    case Pc(s) => SessionRef(s)
    case Dc(c) => ChannelRef(c)
  }

  /** socket.ref = [ACTIVE] + [WSS not closed] + live sessions + references in flight. */
  predicate SocketCounted(k: nat, sockets: Sockets, sessions: Sessions, rtc: RtcMap,
                          out: multiset<Ref>)
    requires k in sockets
  {
    && sockets[k].ref >= 1
    && sockets[k].ref == B(sockets[k].active) + B(Wss(k) in rtc) + |SessionsOf(sessions, k)| + out[SocketRef(k)]
  }

  /** session.ref = [ACTIVE] + [WS not closed] + [PC not closed] + live channels + references in
      flight, which are the pending native creations. The session's socket is live. */
  predicate SessionCounted(s: nat, sockets: Sockets, sessions: Sessions,
                           channels: Channels, rtc: RtcMap, out: multiset<Ref>)
    requires s in sessions
  {
    && sessions[s].socket in sockets
    && sessions[s].ref >= 1
    && sessions[s].ref == B(sessions[s].active) + B(Ws(s) in rtc) + B(Pc(s) in rtc) + |ChannelsOf(channels, s)|
                          + out[SessionRef(s)]
  }

  /** channel.ref = [ACTIVE] + [DC not closed] + references in flight, which are the receives.
      The channel's session is live. */
  predicate ChannelCounted(c: nat, sessions: Sessions, channels: Channels, rtc: RtcMap,
                           out: multiset<Ref>)
    requires c in channels
  {
    && channels[c].session in sessions
    && channels[c].ref >= 1
    && channels[c].ref == B(channels[c].active) + B(Dc(c) in rtc) + out[ChannelRef(c)]
  }

  ghost predicate SocketsCounted(sockets: Sockets, sessions: Sessions, rtc: RtcMap,
                                 out: multiset<Ref>)
  {
    forall k {:trigger SocketCounted(k, sockets, sessions, rtc, out)} :: k in sockets ==>
      SocketCounted(k, sockets, sessions, rtc, out)
  }

  ghost predicate SessionsCounted(sockets: Sockets, sessions: Sessions,
                                  channels: Channels, rtc: RtcMap, out: multiset<Ref>)
  {
    forall s {:trigger SessionCounted(s, sockets, sessions, channels, rtc, out)} :: s in sessions ==>
      SessionCounted(s, sockets, sessions, channels, rtc, out)
  }

  ghost predicate ChannelsCounted(sessions: Sessions, channels: Channels, rtc: RtcMap,
                                  out: multiset<Ref>)
  {
    forall c {:trigger ChannelCounted(c, sessions, channels, rtc, out)} :: c in channels ==>
      ChannelCounted(c, sessions, channels, rtc, out)
  }

  /** Whatever the outside world or a queue refers to is live. */
  ghost predicate Referred(sockets: Sockets, sessions: Sessions, channels: Channels,
                           rtc: RtcMap, out: multiset<Ref>)
  {
    && (forall x {:trigger RtcRef(x)} :: x in rtc ==> Live(sockets, sessions, channels, RtcRef(x)))
    && (forall r {:trigger Live(sockets, sessions, channels, r)} :: r in out ==>
          Live(sockets, sessions, channels, r))
  }

  ghost predicate Counted(sockets: Sockets, sessions: Sessions, channels: Channels,
                          rtc: RtcMap, out: multiset<Ref>)
  {
    && SocketsCounted(sockets, sessions, rtc, out)
    && SessionsCounted(sockets, sessions, channels, rtc, out)
    && ChannelsCounted(sessions, channels, rtc, out)
    && Referred(sockets, sessions, channels, rtc, out)
  }

  /** A filled slot holds the live channel of its index, whose DC has not closed. */
  ghost predicate SlotsFilled(s: nat, sessions: Sessions, channels: Channels,
                              rtc: RtcMap)
    requires s in sessions
  {
    && |sessions[s].channels| <= SYSTEM_INDEX
    && (forall i :: 0 <= i < |sessions[s].channels| && sessions[s].channels[i].Some? ==>
          var c := sessions[s].channels[i].value;
          c in channels && channels[c].session == s && channels[c].index == i && Dc(c) in rtc)
    && (sessions[s].system.Some? && sessions[s].system.value in channels ==>
          var c := sessions[s].system.value;
          channels[c].session == s && channels[c].index == SYSTEM_INDEX)
  }

  /** A channel is the system channel of its session, or in its slot until its DC closed. */
  predicate InSlot(c: nat, sessions: Sessions, channels: Channels, rtc: RtcMap)
    requires c in channels
  {
    channels[c].session in sessions &&
    var x := sessions[channels[c].session];
    if channels[c].index == SYSTEM_INDEX then x.system == Some(c) && !channels[c].incoming
    else Dc(c) in rtc ==> channels[c].index < |x.channels| && x.channels[channels[c].index] == Some(c)
  }

  ghost predicate Slotted(sessions: Sessions, channels: Channels, rtc: RtcMap) {
    && (forall s {:trigger SlotsFilled(s, sessions, channels, rtc)} :: s in sessions ==>
          SlotsFilled(s, sessions, channels, rtc))
    && (forall c {:trigger InSlot(c, sessions, channels, rtc)} :: c in channels ==>
          InSlot(c, sessions, channels, rtc))
  }

  /** The WS and the PC are active as long as the session; a session whose authentication failed
      is closed. */
  predicate PartsActive(s: nat, sessions: Sessions, busy: set<Ref>)
    requires s in sessions
  {
    SessionRef(s) !in busy ==>
      && sessions[s].wsActive == sessions[s].active && sessions[s].pcActive == sessions[s].active
      && (sessions[s].authResults == 1 ==> sessions[s].authenticated || !sessions[s].active)
  }

  /** A channel of a closed session is closed, unless its DC had closed before. A channel that
      lets messages through belongs to a session that has its native session. */
  predicate ChannelActive(c: nat, sessions: Sessions, channels: Channels, rtc: RtcMap,
                          busy: set<Ref>)
    requires c in channels
  {
    && channels[c].dcActive == channels[c].active
    && channels[c].session in sessions
    && var x := sessions[channels[c].session];
    && (channels[c].active && SessionRef(channels[c].session) !in busy && !x.active ==>
          channels[c].index != SYSTEM_INDEX && Dc(c) !in rtc)
    && (channels[c].active && channels[c].dcReceive && Dc(c) in rtc ==> x.native.Some?)
  }

  ghost predicate Active(sessions: Sessions, channels: Channels, rtc: RtcMap,
                         busy: set<Ref>)
  {
    && (forall s {:trigger PartsActive(s, sessions, busy)} :: s in sessions ==>
          PartsActive(s, sessions, busy))
    && (forall c {:trigger ChannelActive(c, sessions, channels, rtc, busy)} :: c in channels ==>
          ChannelActive(c, sessions, channels, rtc, busy))
  }

  /** A socket lists only its own sessions, each at the node of its entry, and lists none once
      it is closed. */
  ghost predicate ListSound(k: nat, sockets: Sockets, sessions: Sessions, busy: set<Ref>)
    requires k in sockets
  {
    && (forall node :: node in sockets[k].sessions ==>
          && node.session in sessions && sessions[node.session].socket == k
          && sessions[node.session].entry == Some(node.entry))
    && (forall i, j :: 0 <= i < j < |sockets[k].sessions| ==> sockets[k].sessions[i] != sockets[k].sessions[j])
    && (SocketRef(k) !in busy ==>
          && sockets[k].wssActive == sockets[k].active
          && (!sockets[k].active ==> sockets[k].sessions == []))
  }

  /** A session is listed exactly while it is active. */
  predicate IsListed(s: nat, sockets: Sockets, sessions: Sessions, busy: set<Ref>)
    requires s in sessions
  {
    && (sessions[s].entry.Some? ==>
          && sessions[s].socket in sockets
          && Node(sessions[s].entry.value, s) in sockets[sessions[s].socket].sessions)
    && (SessionRef(s) !in busy ==> (sessions[s].active <==> sessions[s].entry.Some?))
  }

  ghost predicate Listed(sockets: Sockets, sessions: Sessions, busy: set<Ref>) {
    && (forall k {:trigger ListSound(k, sockets, sessions, busy)} :: k in sockets ==>
          ListSound(k, sockets, sessions, busy))
    && (forall s {:trigger IsListed(s, sockets, sessions, busy)} :: s in sessions ==>
          IsListed(s, sockets, sessions, busy))
  }

  /** A timeout timer belongs to the live session that points to it; so does a ping timer
      whose session is live. */
  predicate TimerOwned(t: nat, sessions: Sessions, timers: Timers)
    requires t in timers
  {
    match timers[t]
    case Timeout(s) => s in sessions && sessions[s].timeout == Some(t)
    case Ping(s) => s in sessions ==> sessions[s].ping == Some(t)
  }

  predicate TimersLive(s: nat, sessions: Sessions, timers: Timers)
    requires s in sessions
  {
    && (sessions[s].timeout.Some? ==>
          sessions[s].timeout.value in timers && timers[sessions[s].timeout.value] == Timeout(s))
    && (sessions[s].ping.Some? ==>
          sessions[s].ping.value in timers && timers[sessions[s].ping.value] == Ping(s))
  }

  ghost predicate Timed(sessions: Sessions, timers: Timers) {
    && (forall t {:trigger TimerOwned(t, sessions, timers)} :: t in timers ==> TimerOwned(t, sessions, timers))
    && (forall s {:trigger TimersLive(s, sessions, timers)} :: s in sessions ==> TimersLive(s, sessions, timers))
  }

  /** Every native session created is in exactly one place: on its way to its session, held by
      it, about to be destroyed, destroyed, or refused by the executor. */
  predicate OnePlace(n: nat, sessions: Sessions, tasks: seq<Task>, exec: seq<Command>, made: set<nat>,
                     destroyed: multiset<nat>, lost: multiset<nat>)
  {
    |HoldersOf(sessions, n)| + Transit(tasks)[n] + Requested(exec)[n] + destroyed[n] + lost[n] == B(n in made)
  }

  ghost predicate Conserved(sessions: Sessions, tasks: seq<Task>, exec: seq<Command>, made: set<nat>,
                            destroyed: multiset<nat>, lost: multiset<nat>)
  {
    forall n: nat {:trigger OnePlace(n, sessions, tasks, exec, made, destroyed, lost)} ::
      OnePlace(n, sessions, tasks, exec, made, destroyed, lost)
  }

  /** A receive command names a native session that is not destroyed before it runs. */
  ghost predicate UsableAt(i: nat, exec: seq<Command>, destroyed: multiset<nat>)
    requires i < |exec|
  {
    exec[i].Receive? ==>
      && exec[i].target.Some?
      && exec[i].target.value !in destroyed
      && Destroy(exec[i].target.value) !in exec[..i]
  }

  ghost predicate Usable(exec: seq<Command>, destroyed: multiset<nat>) {
    forall i: nat {:trigger UsableAt(i, exec, destroyed)} :: i < |exec| ==> UsableAt(i, exec, destroyed)
  }

  /** No event follows the closed event of its rtc object. */
  ghost predicate NoneAfterClosed(i: nat, tasks: seq<Task>, rtc: RtcMap)
    requires i < |tasks|
  {
    tasks[i].Event? ==>
      && tasks[i].source in rtc
      && (tasks[i].what.Closed? ==> !rtc[tasks[i].source])
      && Event(tasks[i].source, Closed) !in tasks[..i]
  }

  predicate ClosedPosted(x: Rtc, tasks: seq<Task>, rtc: RtcMap) {
    x in rtc && !rtc[x] ==> Event(x, Closed) in tasks
  }

  ghost predicate ClosedLast(tasks: seq<Task>, rtc: RtcMap) {
    && (forall i: nat {:trigger NoneAfterClosed(i, tasks, rtc)} :: i < |tasks| ==> NoneAfterClosed(i, tasks, rtc))
    && (forall x {:trigger ClosedPosted(x, tasks, rtc)} :: ClosedPosted(x, tasks, rtc))
  }

  /** How far a session has come. */
  predicate Progress(x: Session, pending: nat) {
    && (x.readyReceived ==> x.authenticated)
    && (x.allOpened <==> x.system.Some? && x.openCount == |x.channels| + 1)
    && x.openings == B(x.readyReceived && x.allOpened)
    && pending + B(x.native.Some?) <= x.openings
    && x.openCount == |x.openedBy| && x.openedBy <= x.members
    && |x.members| <= |x.channels| + B(x.system.Some?)
    && (x.system.Some? ==> |x.members| == |x.channels| + 1 && x.system.value in x.members)
    && (x.ping.Some? ==> x.allOpened)
    && (!x.authenticated ==> x.channels == [] && x.system.None? && x.members == {})
    && x.authResults <= 1
    && (x.authenticated ==> x.authResults == 1)
  }

  predicate Progresses(s: nat, sessions: Sessions, pending: multiset<Ref>)
    requires s in sessions
  {
    Progress(sessions[s], pending[SessionRef(s)])
  }

  ghost predicate Progressing(sessions: Sessions, pending: multiset<Ref>) {
    forall s {:trigger Progresses(s, sessions, pending)} :: s in sessions ==> Progresses(s, sessions, pending)
  }

  /** A channel belongs to the members of its session. */
  predicate IsMember(c: nat, sessions: Sessions, channels: Channels)
    requires c in channels
  {
    channels[c].session in sessions && c in sessions[channels[c].session].members
  }

  /** An open event still to be handled is the only one of its channel. */
  ghost predicate OpensFirst(i: nat, sessions: Sessions, tasks: seq<Task>, openPosted: set<nat>)
    requires i < |tasks|
  {
    tasks[i].Event? && tasks[i].source.Dc? && tasks[i].what.Open? ==>
      && tasks[i].source.c in openPosted
      && (forall s :: s in sessions ==> tasks[i].source.c !in sessions[s].openedBy)
      && tasks[i] !in tasks[..i]
  }

  ghost predicate OpensOnce(sessions: Sessions, channels: Channels, tasks: seq<Task>,
                            openPosted: set<nat>)
  {
    && (forall c {:trigger IsMember(c, sessions, channels)} :: c in channels ==> IsMember(c, sessions, channels))
    && (forall s {:trigger sessions[s].openedBy} :: s in sessions ==> sessions[s].openedBy <= openPosted)
    && (forall i: nat {:trigger OpensFirst(i, sessions, tasks, openPosted)} :: i < |tasks| ==>
          OpensFirst(i, sessions, tasks, openPosted))
  }

  predicate MappedBack(k: nat, sockets: Sockets, socketMap: map<nat, nat>)
    requires k in sockets
  {
    && sockets[k].native in socketMap && socketMap[sockets[k].native] == k
    && sockets[k].modes <= SYSTEM_INDEX
  }

  predicate MapsToLive(n: nat, sockets: Sockets, socketMap: map<nat, nat>)
    requires n in socketMap
  {
    socketMap[n] in sockets && sockets[socketMap[n]].native == n
  }

  /** A native socket that starts listening is new to the socket map. */
  ghost predicate ListensFirst(i: nat, socketMap: map<nat, nat>, tasks: seq<Task>)
    requires i < |tasks|
  {
    tasks[i].Listening? ==>
      && tasks[i].modes <= SYSTEM_INDEX
      && tasks[i].native !in socketMap
      && (forall m :: Listening(tasks[i].native, m) !in tasks[..i])
  }

  /** The socket map pairs the live sockets with their native sockets. */
  ghost predicate Mapped(sockets: Sockets, socketMap: map<nat, nat>, tasks: seq<Task>) {
    && (forall k {:trigger MappedBack(k, sockets, socketMap)} :: k in sockets ==> MappedBack(k, sockets, socketMap))
    && (forall n {:trigger MapsToLive(n, sockets, socketMap)} :: n in socketMap ==> MapsToLive(n, sockets, socketMap))
    && (forall i: nat {:trigger ListensFirst(i, socketMap, tasks)} :: i < |tasks| ==> ListensFirst(i, socketMap, tasks))
  }

  predicate SessionFresh(x: Session, next: nat) {
    && (forall c :: c in x.members ==> c < next)
    && (x.entry.Some? ==> x.entry.value < next)
  }

  predicate Below(n: nat, next: nat) {
    n < next
  }

  /** Names are never reused. */
  ghost predicate Fresh(sockets: Sockets, sessions: Sessions, channels: Channels,
                        socketMap: map<nat, nat>, tasks: seq<Task>, timers: Timers, openPosted: set<nat>,
                        made: set<nat>, next: nat)
  {
    && (forall n {:trigger Below(n, next)} ::
          (n in sockets || n in sessions || n in channels || n in socketMap || n in timers || n in openPosted
           || n in made) ==> Below(n, next))
    && (forall s {:trigger SessionFresh(sessions[s], next)} :: s in sessions ==> SessionFresh(sessions[s], next))
    && (forall t {:trigger timers[t]} :: t in timers ==> timers[t].s < next)
    && (forall n: nat, m: nat {:trigger Listening(n, m)} :: Listening(n, m) in tasks ==> n < next)
  }

  /** Every object acquired is live or was released, and released once. */
  predicate Accounted(r: Ref, sockets: Sockets, sessions: Sessions, channels: Channels, ledger: Ledger) {
    B(r in ledger.acquired) == B(Live(sockets, sessions, channels, r)) + ledger.released[r]
  }

  /** The strays are the data channels that are active though their DC has closed. */
  predicate IsStray(c: nat, channels: Channels, rtc: RtcMap, ledger: Ledger) {
    c in ledger.strays
    <==> c in channels && channels[c].active && channels[c].index != SYSTEM_INDEX && Dc(c) !in rtc
  }

  function NameOf(r: Ref): nat {
    match r
    case SocketRef(k) => k
    case SessionRef(s) => s
    case ChannelRef(c) => c
  }

  ghost predicate Booked(sockets: Sockets, sessions: Sessions, channels: Channels, rtc: RtcMap, ledger: Ledger,
                         next: nat)
  {
    && (forall r {:trigger r in ledger.acquired} :: r in ledger.acquired ==> NameOf(r) < next)
    && (forall r {:trigger Accounted(r, sockets, sessions, channels, ledger)} ::
          Accounted(r, sockets, sessions, channels, ledger))
    && (forall c: nat {:trigger IsStray(c, channels, rtc, ledger)} :: IsStray(c, channels, rtc, ledger))
  }

  /** An active session whose system channel is released: closing it follows a stale pointer. */
  predicate Stale(s: nat, sessions: Sessions, channels: Channels) {
    s in sessions && sessions[s].active && sessions[s].system.Some? && sessions[s].system.value !in channels
  }

  /** The native session of a session has that session as its owner. */
  predicate OwnsNative(s: nat, sessions: Sessions, owners: map<nat, nat>)
    requires s in sessions
  {
    sessions[s].native.Some? ==> sessions[s].native.value in owners && owners[sessions[s].native.value] == s
  }

  /** A native session has an owner once it was handed over, and never loses it. */
  predicate HandedOver(n: nat, tasks: seq<Task>, owners: map<nat, nat>, made: set<nat>) {
    n in owners <==> n in made && Transit(tasks)[n] == 0
  }

  /** A native session is only addressed behind the task that hands it over. */
  predicate AddressedAt(i: nat, tasks: seq<Task>, owners: map<nat, nat>)
    requires i < |tasks|
  {
    tasks[i].Disconnect? || tasks[i].Deliver? ==>
      tasks[i].native in owners || Transit(tasks[..i])[tasks[i].native] > 0
  }

  ghost predicate Owned(sessions: Sessions, tasks: seq<Task>, owners: map<nat, nat>, made: set<nat>) {
    && (forall s {:trigger OwnsNative(s, sessions, owners)} :: s in sessions ==> OwnsNative(s, sessions, owners))
    && (forall n: nat {:trigger HandedOver(n, tasks, owners, made)} :: HandedOver(n, tasks, owners, made))
    && (forall i: nat {:trigger AddressedAt(i, tasks, owners)} :: i < |tasks| ==> AddressedAt(i, tasks, owners))
  }

  /** The ping timer of a closed or released session was started late. */
  predicate PingLate(t: nat, sessions: Sessions, timers: Timers, late: map<nat, nat>, busy: set<Ref>)
    requires t in timers
  {
    timers[t].Ping? && (timers[t].s in sessions ==> !sessions[timers[t].s].active && SessionRef(timers[t].s) !in busy)
    ==> timers[t].s in late && late[timers[t].s] == t
  }

  /** A ping timer started late is live, and its session closed or released. */
  predicate LateLives(s: nat, sessions: Sessions, timers: Timers, late: map<nat, nat>)
    requires s in late
  {
    late[s] in timers && timers[late[s]] == Ping(s) && (s in sessions ==> !sessions[s].active)
  }

  ghost predicate Latent(sessions: Sessions, timers: Timers, late: map<nat, nat>, busy: set<Ref>) {
    && (forall t {:trigger PingLate(t, sessions, timers, late, busy)} :: t in timers ==>
          PingLate(t, sessions, timers, late, busy))
    && (forall s {:trigger LateLives(s, sessions, timers, late)} :: s in late ==>
          LateLives(s, sessions, timers, late))
  }

  datatype Layer = Counts | Slots | Activity | Lists | Clocks | Natives | Commands | Events | Handshake | Opens
                 | Names | Maps | Books | Owners | Pings

  ghost predicate Holds(layer: Layer, st: State, hand: multiset<Ref>, busy: set<Ref>) {
    match layer
    case Counts => Counted(st.sockets, st.sessions, st.channels, st.rtc, QueueRefs(st.tasks, st.exec) + hand)
    case Slots => Slotted(st.sessions, st.channels, st.rtc)
    case Activity => Active(st.sessions, st.channels, st.rtc, busy)
    case Lists => Listed(st.sockets, st.sessions, busy)
    case Clocks => Timed(st.sessions, st.timers)
    case Natives => Conserved(st.sessions, st.tasks, st.exec, st.made, st.destroyed, st.lost)
    case Commands => Usable(st.exec, st.destroyed)
    case Events => ClosedLast(st.tasks, st.rtc)
    case Handshake => Progressing(st.sessions, QueueRefs(st.tasks, st.exec))
    case Opens => OpensOnce(st.sessions, st.channels, st.tasks, st.openPosted)
    case Names =>
      Fresh(st.sockets, st.sessions, st.channels, st.socketMap, st.tasks, st.timers, st.openPosted, st.made, st.next)
    case Maps => Mapped(st.sockets, st.socketMap, st.tasks)
    case Books => Booked(st.sockets, st.sessions, st.channels, st.rtc, st.ledger, st.next)
    case Owners => Owned(st.sessions, st.tasks, st.owners, st.made)
    case Pings => Latent(st.sessions, st.timers, st.ledger.late, busy)
  }

  ghost predicate Inv(st: State, hand: multiset<Ref>, busy: set<Ref>) {
    && !st.fault
    && forall layer {:trigger Holds(layer, st, hand, busy)} :: Holds(layer, st, hand, busy)
  }

  /** What every state between two steps satisfies. */
  ghost predicate Invariant(st: State) {
    Inv(st, multiset{}, {})
  }

  lemma ReadObjects(st: State, hand: multiset<Ref>, busy: set<Ref>)
    requires Inv(st, hand, busy)
    ensures Counted(st.sockets, st.sessions, st.channels, st.rtc, QueueRefs(st.tasks, st.exec) + hand)
    ensures Slotted(st.sessions, st.channels, st.rtc)
    ensures Active(st.sessions, st.channels, st.rtc, busy)
    ensures Listed(st.sockets, st.sessions, busy)
    ensures Timed(st.sessions, st.timers)
    ensures Progressing(st.sessions, QueueRefs(st.tasks, st.exec))
  {
    assert Holds(Counts, st, hand, busy) && Holds(Slots, st, hand, busy) && Holds(Activity, st, hand, busy);
    assert Holds(Lists, st, hand, busy) && Holds(Clocks, st, hand, busy) && Holds(Handshake, st, hand, busy);
  }

  lemma ReadQueues(st: State, hand: multiset<Ref>, busy: set<Ref>)
    requires Inv(st, hand, busy)
    ensures Conserved(st.sessions, st.tasks, st.exec, st.made, st.destroyed, st.lost)
    ensures Usable(st.exec, st.destroyed)
    ensures ClosedLast(st.tasks, st.rtc)
    ensures OpensOnce(st.sessions, st.channels, st.tasks, st.openPosted)
    ensures Mapped(st.sockets, st.socketMap, st.tasks)
  {
    assert Holds(Natives, st, hand, busy) && Holds(Commands, st, hand, busy) && Holds(Events, st, hand, busy);
    assert Holds(Opens, st, hand, busy) && Holds(Maps, st, hand, busy);
  }

  lemma ReadNames(st: State, hand: multiset<Ref>, busy: set<Ref>)
    requires Inv(st, hand, busy)
    ensures Fresh(st.sockets, st.sessions, st.channels, st.socketMap, st.tasks, st.timers, st.openPosted, st.made,
                  st.next)
    ensures Booked(st.sockets, st.sessions, st.channels, st.rtc, st.ledger, st.next)
    ensures Owned(st.sessions, st.tasks, st.owners, st.made)
    ensures Latent(st.sessions, st.timers, st.ledger.late, busy)
  {
    assert Holds(Names, st, hand, busy) && Holds(Books, st, hand, busy);
    assert Holds(Owners, st, hand, busy) && Holds(Pings, st, hand, busy);
  }

  /** Every layer of the invariant. */
  lemma Read(st: State, hand: multiset<Ref>, busy: set<Ref>)
    requires Inv(st, hand, busy)
    ensures Counted(st.sockets, st.sessions, st.channels, st.rtc, QueueRefs(st.tasks, st.exec) + hand)
    ensures Slotted(st.sessions, st.channels, st.rtc)
    ensures Active(st.sessions, st.channels, st.rtc, busy)
    ensures Listed(st.sockets, st.sessions, busy)
    ensures Timed(st.sessions, st.timers)
    ensures Conserved(st.sessions, st.tasks, st.exec, st.made, st.destroyed, st.lost)
    ensures Usable(st.exec, st.destroyed)
    ensures ClosedLast(st.tasks, st.rtc)
    ensures Progressing(st.sessions, QueueRefs(st.tasks, st.exec))
    ensures OpensOnce(st.sessions, st.channels, st.tasks, st.openPosted)
    ensures Fresh(st.sockets, st.sessions, st.channels, st.socketMap, st.tasks, st.timers, st.openPosted, st.made,
                  st.next)
    ensures Mapped(st.sockets, st.socketMap, st.tasks)
    ensures Booked(st.sockets, st.sessions, st.channels, st.rtc, st.ledger, st.next)
    ensures Owned(st.sessions, st.tasks, st.owners, st.made)
    ensures Latent(st.sessions, st.timers, st.ledger.late, busy)
  {
    ReadObjects(st, hand, busy);
    ReadQueues(st, hand, busy);
    ReadNames(st, hand, busy);
  }

  lemma Hold(st: State, hand: multiset<Ref>, busy: set<Ref>)
    requires !st.fault
    requires Counted(st.sockets, st.sessions, st.channels, st.rtc, QueueRefs(st.tasks, st.exec) + hand)
    requires Slotted(st.sessions, st.channels, st.rtc)
    requires Active(st.sessions, st.channels, st.rtc, busy)
    requires Listed(st.sockets, st.sessions, busy)
    requires Timed(st.sessions, st.timers)
    requires Conserved(st.sessions, st.tasks, st.exec, st.made, st.destroyed, st.lost)
    requires Usable(st.exec, st.destroyed)
    requires ClosedLast(st.tasks, st.rtc)
    requires Progressing(st.sessions, QueueRefs(st.tasks, st.exec))
    requires OpensOnce(st.sessions, st.channels, st.tasks, st.openPosted)
    requires Fresh(st.sockets, st.sessions, st.channels, st.socketMap, st.tasks, st.timers, st.openPosted, st.made,
                   st.next)
    requires Mapped(st.sockets, st.socketMap, st.tasks)
    requires Booked(st.sockets, st.sessions, st.channels, st.rtc, st.ledger, st.next)
    requires Owned(st.sessions, st.tasks, st.owners, st.made)
    requires Latent(st.sessions, st.timers, st.ledger.late, busy)
    ensures Inv(st, hand, busy)
  {
  }

  lemma InitiallyInvariant()
    ensures Invariant(Initial)
  {
    forall n: nat ensures OnePlace(n, map[], [], [], {}, multiset{}, multiset{}) {
      assert HoldersOf(map[], n) == {};
    }
    Hold(Initial, multiset{}, {});
  }
}
