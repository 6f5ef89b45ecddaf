/** The state of the plugin: the three pools of reference-counted objects, the queue of the
    event loop, the queue of the native executor, and what the outside world still owes.
    An object is named by its incarnation: a number is never reused, so a name that is no
    longer in its map is a pointer to an object that went back to its pool. */
module Model {
  import opened Wrappers

  /** The index of the system channel, SIZE_MAX. */
  const SYSTEM_INDEX: nat := 0xFFFF_FFFF_FFFF_FFFF

  /** One object of the rtc layer, named after the plugin object it feeds. */
  datatype Rtc = Wss(k: nat) | Ws(s: nat) | Pc(s: nat) | Dc(c: nat)

  /** One reference to a counted object. */
  datatype Ref = SocketRef(k: nat) | SessionRef(s: nat) | ChannelRef(c: nat)

  datatype RtcEvent =
    | Closed
    | Client                              // WSS: a client connected
    | Message(raw: seq<char>)             // WS or DC: the bytes of rtc_buffer_data
    | LocalCandidate                      // PC
    | StateChange(lost: bool)             // PC: any state but closed; lost = disconnected or failed
    | DataChannel(valid: bool, index: nat) // PC: the peer opened a data channel
    | Open                                // DC
    | Error                               // DC

  /** A task of the event loop. */
  datatype Task =
    | Event(source: Rtc, what: RtcEvent)
    | Listening(native: nat, modes: nat)
    | Stopped(native: nat)
    | Disconnect(native: nat)
    | Deliver(native: nat, index: nat)    // a message to send, or a new mode, for one channel
    | Created(s: nat, created: Option<nat>)
    | Received(c: nat)

  /** A command of the native executor. */
  datatype Command =
    | Create(s: nat)
    | Receive(c: nat, target: Option<nat>)
    | Destroy(native: nat)

  datatype Timer = Timeout(s: nat) | Ping(s: nat)

  datatype Node = Node(entry: nat, session: nat)

  datatype Socket = Socket(
    ref: nat,
    active: bool,
    wssActive: bool,
    modes: nat,
    sessions: seq<Node>,
    native: nat)

  datatype Session = Session(
    ref: nat,
    active: bool,
    wsActive: bool,
    authenticated: bool,
    pcActive: bool,
    readyReceived: bool,
    allOpened: bool,
    socket: nat,
    channels: seq<Option<nat>>,
    system: Option<nat>,
    entry: Option<nat>,
    openCount: nat,
    ping: Option<nat>,
    timeout: Option<nat>,
    native: Option<nat>,
    // Bookkeeping of the model, read by no step: how often the authentication result and
    // the opening of the native session ran, the channels created and those seen open.
    authResults: nat,
    openings: nat,
    members: set<nat>,
    openedBy: set<nat>)

  datatype Channel = Channel(
    ref: nat,
    active: bool,
    dcActive: bool,
    dcReceive: bool,
    index: nat,
    session: nat,
    incoming: bool)

  /** Bookkeeping of the model, read by no step: the objects acquired, the objects released,
      the channels whose DC closed before they did, and the ping timers started for sessions
      that were closed already. */
  datatype Ledger = Ledger(acquired: set<Ref>, released: multiset<Ref>, strays: set<nat>, late: map<nat, nat>)

  datatype State = State(
    sockets: Sockets,
    sessions: Sessions,
    channels: Channels,
    socketMap: map<nat, nat>,   // native socket to socket
    tasks: seq<Task>,           // the list of the event loop
    exec: seq<Command>,         // the queue of the native executor
    timers: Timers,    // the live timers
    owners: map<nat, nat>,      // native session to its private data
    // The outside world: an rtc object is in the map until its closed event was handled,
    // and maps to true until that event was posted.
    rtc: RtcMap,
    listening: set<nat>,        // native sockets listening and not stopped
    openPosted: set<nat>,       // data channels that reported open
    made: set<nat>,             // native sessions created
    destroyed: multiset<nat>,   // native sessions destroyed by the executor
    lost: multiset<nat>,        // native sessions whose destroy the executor refused
    ledger: Ledger,
    next: nat,                  // the next unused name
    fault: bool)                // a NULL or stale pointer was followed

  type Sockets = map<nat, Socket>
  type Sessions = map<nat, Session>
  type Channels = map<nat, Channel>
  type Timers = map<nat, Timer>
  type RtcMap = map<Rtc, bool>

  /** What the code outside this model answers during one step. */
  datatype Outcome = Outcome(
    acquire: bool,              // the pool has an element and its init succeeds
    resize: bool,               // the array of channels can be resized
    acquired: nat,              // how many channels can be acquired
    push: bool,                 // the list of sessions accepts an entry
    timer: bool,                // a timer can be started
    token: Option<int>,         // the decoded connect token's timeout
    native: bool)               // the native session can be created

  const Initial: State := State(map[], map[], map[], map[], [], [], map[], map[], map[], {}, {}, {},
                                multiset{}, multiset{}, Ledger({}, multiset{}, {}, map[]), 0, false)

  /** The executor runs from the first listening native socket to the last one stopped. */
  predicate ExecutorUp(st: State) {
    st.listening != {}
  }

  function Fail(st: State): State {
    st.(fault := true)
  }

  function SetSession(st: State, s: nat, x: Session): State {
    st.(sessions := st.sessions[s := x])
  }

  function SetChannel(st: State, c: nat, x: Channel): State {
    st.(channels := st.channels[c := x])
  }

  function SetSocket(st: State, k: nat, x: Socket): State {
    st.(sockets := st.sockets[k := x])
  }

  function Acquired(ledger: Ledger, r: Ref): Ledger {
    ledger.(acquired := ledger.acquired + {r})
  }

  function Released(ledger: Ledger, r: Ref): Ledger {
    ledger.(released := ledger.released + multiset{r})
  }

  /** The channel c, in the state x, sees its DC close. */
  function Straying(ledger: Ledger, c: nat, x: Channel): Ledger {
    if x.active && x.index != SYSTEM_INDEX then ledger.(strays := ledger.strays + {c}) else ledger
  }

  /** The session s, active or not, gets the ping timer t. */
  function Pinging(ledger: Ledger, s: nat, active: bool, t: nat): Ledger {
    if active then ledger else ledger.(late := ledger.late[s := t])
  }

  function Submit(st: State, command: Command): State {
    st.(exec := st.exec + [command])
  }
}
