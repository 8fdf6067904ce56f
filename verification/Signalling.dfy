/** The signalling server (sf-server: state.rs, peer_handler.rs, ws.rs) as a machine whose steps are its atomic
    operations, so that a run is any interleaving of connection loops and send tasks. */
module Signalling {
  import opened Bytes
  import opened PeerIdentity

  type ConnId = nat
  type Tag = nat

  const CHANNEL_CAPACITY: nat := 32

  datatype PeerEvent =
    | NewPeer(peer: PeerID)
    | Message(peer: PeerID, text: seq<u8>)
    | WebRtcOffer(peer: PeerID, description: nat)
    | WebRtcCandidate(peer: PeerID, candidate: nat)

  datatype PeerRequest = KeepAlive | Forward(from: PeerID, to: Option<PeerID>, data: PeerEvent)

  /** A WebSocket frame; a text frame that does not parse as a request is Text(None). */
  datatype Frame = Text(request: Option<PeerRequest>) | Binary | Ping | Pong | Close

  /** A Forward built by `send_forward`, with the batch and turn it was built for. Its index is its tag. */
  datatype Envelope = Envelope(from: PeerID, to: PeerID, data: PeerEvent, batch: nat, turn: nat)

  /** One call of `broadcast_forward_except` or `forward_single`: the targets in order and the tags built so far. */
  datatype Batch = Batch(owner: ConnId, from: PeerID, data: PeerEvent, ids: seq<PeerID>, sent: seq<Tag>)

  /** Where a connection is in `handle_ws_connection`, `add_peer`, `process_ws` and what they call. */
  datatype Pc =
    | Checking
    | Rejected
    | Inserting
    | Counting
    | Collecting(from: PeerID, data: PeerEvent)
    | Dispatching(batch: nat)
    | Spawning(batch: nat, tag: Tag, dest: ConnId)
    | Selecting
    | Writing(tag: Tag)
    | Removing
    | Uncounting
    | Closing
    | Closed
    | Unwound

  /** A connection with its channel: whether its receiver and the handler of its own loop are there, whether its read
      half has ended, the queue, what was written to the socket, lost in a failed write, or
      discarded with the receiver, and the history of everything the channel accepted. */
  datatype Conn = Conn(id: PeerID, pc: Pc, open: bool, handler: bool, ended: bool, queue: seq<Tag>,
                       written: seq<Tag>, lost: seq<Tag>, discarded: seq<Tag>, accepted: seq<Tag>)
  {
    function Push(tag: Tag): Conn { this.(queue := queue + [tag], accepted := accepted + [tag]) }

    function Pop(): Conn
      requires queue != []
    {
      this.(pc := Writing(queue[0]), queue := queue[1..])
    }

    /** The outcome of writing the message in hand; a failed serialisation ends the loop the same way. */
    function Wrote(ok: bool): Conn
      requires pc.Writing?
    {
      if ok then this.(pc := Selecting, written := written + [pc.tag])
      else this.(pc := Removing, lost := lost + [pc.tag])
    }

    function Shut(): Conn {
      this.(pc := Closed, open := false, handler := false, queue := [], discarded := discarded + queue)
    }
  }

  datatype TaskPc = Sending | Sent | Counted | Failed

  /** A spawned send: the handler cloned at dispatch belongs to connection `dest`. */
  datatype Task = Task(dest: ConnId, pc: TaskPc)

  datatype State = State(
    peers: map<PeerID, ConnId>,
    gauge: int,
    overwrites: nat,
    conns: map<ConnId, Conn>,
    built: seq<Envelope>,
    notFound: set<Tag>,
    tasks: map<Tag, Task>,
    batches: seq<Batch>,
    sentTotal: map<PeerID, nat>)

  const INIT: State := State(map[], 0, 0, map[], [], {}, map[], [], map[])

  /** A labelled counter that has not been touched reads zero. */
  function Reading(counter: map<PeerID, nat>, p: PeerID): nat {
    if p in counter then counter[p] else 0
  }

  /** Accepting a connection: `handle_ws_connection` and `add_peer` up to its broadcast. */
  datatype JoinStep = Connect(id: PeerID) | Check | Insert | Count(system: PeerID)

  /** `broadcast_forward_except`, `forward_single`, `send_forward` and `send_to_peer`. */
  datatype RouteStep = Collect(ids: seq<PeerID>) | Lookup | Spawn | Finish

  /** The select loop of `process_ws` and what follows it. */
  datatype ServeStep = Take | Write(ok: bool) | ReadError | Remove | Uncount | DropReceiver

  /** The spawned task running `PeerHandler::send`. */
  datatype SendStep = Enqueue | FailSend | CountSent

  /** The two branches of the select loop finding nothing more: the read half, and the channel. */
  datatype EndStep = ReadEnds | OutboundNone

  datatype Step =
    | Join(c: ConnId, join: JoinStep)
    | Route(c: ConnId, route: RouteStep)
    | Receive(c: ConnId, frame: Frame)
    | Serve(c: ConnId, serve: ServeStep)
    | End(c: ConnId, end: EndStep)
    | Send(tag: Tag, send: SendStep)

  predicate At(s: State, c: ConnId, pc: Pc) {
    c in s.conns && s.conns[c].pc == pc
  }

  /** `ids` lists the keys of the registry, in any order. */
  predicate Enumerates(ids: seq<PeerID>, peers: map<PeerID, ConnId>) {
    && (forall i, j :: 0 <= i < j < |ids| ==> ids[i] != ids[j])
    && (forall i :: 0 <= i < |ids| ==> ids[i] in peers)
    && (forall p :: p in peers ==> p in ids)
  }

  predicate CanJoin(s: State, c: ConnId, step: JoinStep) {
    match step
    case Connect(_) => c !in s.conns
    case Check => At(s, c, Checking)
    case Insert => At(s, c, Inserting)
    case Count(_) => At(s, c, Counting)
  }

  predicate CanRoute(s: State, c: ConnId, step: RouteStep) {
    && c in s.conns
    && var pc := s.conns[c].pc;
    match step
    case Collect(ids) => pc.Collecting? && Enumerates(ids, s.peers)
    case Lookup =>
      pc.Dispatching? && pc.batch < |s.batches| && |s.batches[pc.batch].sent| < |s.batches[pc.batch].ids|
    case Spawn => pc.Spawning?
    case Finish =>
      pc.Dispatching? && pc.batch < |s.batches| && |s.batches[pc.batch].sent| == |s.batches[pc.batch].ids|
  }

  predicate CanServe(s: State, c: ConnId, step: ServeStep) {
    && c in s.conns
    && var pc := s.conns[c].pc;
    match step
    case Take => pc == Selecting && s.conns[c].queue != []
    case Write(_) => pc.Writing?
    case ReadError => pc == Selecting && !s.conns[c].ended
    case Remove => pc == Removing
    case Uncount => pc == Uncounting
    case DropReceiver => pc == Closing
  }

  /** Who can hold a sender of a connection's channel: a clone of its handler is with its own loop, in the registry,
      with a dispatcher between lookup and spawn, and in a send that is not finished. */
  datatype Holder = OwnLoop | Entry(p: PeerID) | Dispatcher(d: ConnId) | SendTask(tag: Tag)

  predicate HoldsSender(s: State, c: ConnId, holder: Holder) {
    match holder
    case OwnLoop => c in s.conns && s.conns[c].handler
    case Entry(p) => p in s.peers && s.peers[p] == c
    case Dispatcher(d) => d in s.conns && s.conns[d].pc.Spawning? && s.conns[d].pc.dest == c
    case SendTask(tag) => tag in s.tasks && s.tasks[tag].dest == c && (s.tasks[tag].pc == Sending || s.tasks[tag].pc == Sent)
  }

  /** `recv` yields None from an empty channel that no sender is left for. */
  ghost predicate ChannelEnded(s: State, c: ConnId) {
    c in s.conns && s.conns[c].queue == [] && forall holder :: !HoldsSender(s, c, holder)
  }

  ghost predicate CanEnd(s: State, c: ConnId, step: EndStep) {
    At(s, c, Selecting)
    && match step
       case ReadEnds => !s.conns[c].ended
       case OutboundNone => ChannelEnded(s, c)
  }

  predicate CanSend(s: State, tag: Tag, step: SendStep) {
    && tag in s.tasks && tag < |s.built| && s.tasks[tag].dest in s.conns
    && var dest := s.conns[s.tasks[tag].dest];
    match step
    case Enqueue => s.tasks[tag].pc == Sending && dest.open && |dest.queue| < CHANNEL_CAPACITY
    case FailSend => s.tasks[tag].pc == Sending && !dest.open
    case CountSent => s.tasks[tag].pc == Sent
  }

  ghost predicate Enabled(s: State, step: Step) {
    match step
    case Join(c, j) => CanJoin(s, c, j)
    case Route(c, r) => CanRoute(s, c, r)
    case Receive(c, _) => At(s, c, Selecting) && !s.conns[c].ended
    case End(c, e) => CanEnd(s, c, e)
    case Serve(c, v) => CanServe(s, c, v)
    case Send(tag, d) => CanSend(s, tag, d)
  }

  function SetConn(s: State, c: ConnId, conn: Conn): State { s.(conns := s.conns[c := conn]) }

  function Goto(s: State, c: ConnId, pc: Pc): State
    requires c in s.conns
  {
    SetConn(s, c, s.conns[c].(pc := pc))
  }

  function StartBatch(s: State, c: ConnId, from: PeerID, data: PeerEvent, ids: seq<PeerID>): State
    requires c in s.conns
  {
    Goto(s, c, Dispatching(|s.batches|)).(batches := s.batches + [Batch(c, from, data, ids, [])])
  }

  /** `send_forward` and the registry lookup of `send_to_peer`, for the next target of the batch. */
  function DoLookup(s: State, c: ConnId): State
    requires CanRoute(s, c, Lookup)
  {
    var b := s.conns[c].pc.batch;
    var batch := s.batches[b];
    var tag := |s.built|;
    var to := batch.ids[|batch.sent|];
    var s' := s.(built := s.built + [Envelope(batch.from, to, batch.data, b, |batch.sent|)],
                 batches := s.batches[b := batch.(sent := batch.sent + [tag])]);
    if to in s.peers then Goto(s', c, Spawning(b, tag, s.peers[to]))
    else s'.(notFound := s.notFound + {tag})
  }

  datatype Action = Ignore | Leave | ForwardOne(from: PeerID, to: PeerID, data: PeerEvent) | ForwardAll(data: PeerEvent)

  /** What `process_incoming` and `handle_request` make of a frame. */
  function Interpret(frame: Frame): Action {
    match frame
    case Close => Leave
    case Text(Some(Forward(from, Some(to), data))) => ForwardOne(from, to, data)
    case Text(Some(Forward(_, None, data))) => ForwardAll(data)
    case _ => Ignore
  }

  /** A broadcast is sent in the name of the connection, a single forward in the name the client gives. */
  function DoReceive(s: State, c: ConnId, action: Action): State
    requires At(s, c, Selecting)
  {
    match action
    case Ignore => s
    case Leave => Goto(s, c, Removing)
    case ForwardOne(from, to, data) => StartBatch(s, c, from, data, [to])
    case ForwardAll(data) => Goto(s, c, Collecting(s.conns[c].id, data))
  }

  function DoJoin(s: State, c: ConnId, step: JoinStep): State
    requires CanJoin(s, c, step)
  {
    match step
    case Connect(id) => SetConn(s, c, Conn(id, Checking, true, true, false, [], [], [], [], []))
    case Check =>
      if s.conns[c].id in s.peers then SetConn(s, c, s.conns[c].(pc := Rejected, open := false, handler := false))
      else Goto(s, c, Inserting)
    case Insert =>
      var id := s.conns[c].id;
      Goto(s, c, Counting).(peers := s.peers[id := c],
                            overwrites := s.overwrites + if id in s.peers then 1 else 0)
    case Count(system) => Goto(s, c, Collecting(system, NewPeer(s.conns[c].id))).(gauge := s.gauge + 1)
  }

  function DoRoute(s: State, c: ConnId, step: RouteStep): State
    requires CanRoute(s, c, step)
  {
    var pc := s.conns[c].pc;
    match step
    case Collect(ids) => StartBatch(s, c, pc.from, pc.data, ids)
    case Lookup => DoLookup(s, c)
    case Spawn => Goto(s, c, Dispatching(pc.batch)).(tasks := s.tasks[pc.tag := Task(pc.dest, Sending)])
    case Finish => Goto(s, c, Selecting)
  }

  function DoServe(s: State, c: ConnId, step: ServeStep): State
    requires CanServe(s, c, step)
  {
    var conn := s.conns[c];
    match step
    case Take => SetConn(s, c, conn.Pop())
    case Write(ok) => SetConn(s, c, conn.Wrote(ok))
    case ReadError => Goto(s, c, Removing)
    case Remove =>
      if conn.id in s.peers then Goto(s, c, Uncounting).(peers := s.peers - {conn.id}) else Goto(s, c, Closing)
    case Uncount => Goto(s, c, Closing).(gauge := s.gauge - 1)
    case DropReceiver => SetConn(s, c, conn.Shut())
  }

  /** A branch that finds nothing is disabled; with both disabled the `select!` panics. */
  function DoEnd(s: State, c: ConnId, step: EndStep): State
    requires c in s.conns
  {
    var conn := s.conns[c];
    match step
    case ReadEnds => SetConn(s, c, conn.(ended := true))
    case OutboundNone =>
      if conn.ended then SetConn(s, c, conn.(pc := Unwound, open := false, handler := false)) else s
  }

  function DoSend(s: State, tag: Tag, step: SendStep): State
    requires CanSend(s, tag, step)
  {
    var dest := s.tasks[tag].dest;
    match step
    case Enqueue => SetConn(s, dest, s.conns[dest].Push(tag)).(tasks := s.tasks[tag := Task(dest, Sent)])
    case FailSend => s.(tasks := s.tasks[tag := Task(dest, Failed)])
    case CountSent =>
      var to := s.built[tag].to;
      s.(tasks := s.tasks[tag := Task(dest, Counted)],
         sentTotal := s.sentTotal[to := Reading(s.sentTotal, to) + 1])
  }

  function Apply(s: State, step: Step): State
    requires Enabled(s, step)
  {
    match step
    case Join(c, j) => DoJoin(s, c, j)
    case Route(c, r) => DoRoute(s, c, r)
    case Receive(c, frame) => DoReceive(s, c, Interpret(frame))
    case Serve(c, v) => DoServe(s, c, v)
    case End(c, e) => DoEnd(s, c, e)
    case Send(tag, d) => DoSend(s, tag, d)
  }

  /** The state after a run from the empty server, if every step of it is enabled. */
  ghost function After(run: seq<Step>): Option<State> {
    if run == [] then Some(INIT)
    else
      var before := After(run[..|run| - 1]);
      if before.Some? && Enabled(before.value, run[|run| - 1]) then Some(Apply(before.value, run[|run| - 1]))
      else None
  }
}
