/** What every step of the signalling machine keeps. Each invariant is stated at one identifier, tag, batch or
    connection, and each lemma follows one of them through every step. */
module SignallingInvariants {
  import opened Bytes
  import opened PeerIdentity
  import opened Signalling

  /** Between inserting itself and removing itself. */
  predicate Live(pc: Pc) {
    pc.Counting? || pc.Collecting? || pc.Dispatching? || pc.Spawning? || pc.Selecting? || pc.Writing? || pc.Removing?
  }

  /** Has inserted itself at some time. */
  predicate Past(pc: Pc) { !pc.Checking? && !pc.Rejected? && !pc.Inserting? }

  predicate InChannel(pc: TaskPc) { pc == Sent || pc == Counted }

  /** A registered identifier leads to a live connection of that identifier. */
  predicate RegistryAt(s: State, p: PeerID) {
    p in s.peers ==> s.peers[p] in s.conns && s.conns[s.peers[p]].id == p && Live(s.conns[s.peers[p]].pc)
  }

  /** A built Forward is in its batch, at its turn. */
  predicate BuiltAt(s: State, t: Tag) {
    t < |s.built| ==>
      && s.built[t].batch < |s.batches|
      && s.built[t].turn < |s.batches[s.built[t].batch].sent|
      && s.batches[s.built[t].batch].sent[s.built[t].turn] == t
  }

  /** The connection `c` holds `t` between lookup and spawn. */
  predicate Holds(s: State, c: ConnId, t: Tag) {
    c in s.conns && s.conns[c].pc.Spawning? && s.conns[c].pc.tag == t
  }

  function Builder(s: State, t: Tag): ConnId
    requires t < |s.built| && s.built[t].batch < |s.batches|
  {
    s.batches[s.built[t].batch].owner
  }

  /** A built Forward is not found, spawned, or held by its builder. */
  predicate TagAt(s: State, t: Tag) {
    && (t in s.notFound ==> t < |s.built| && t !in s.tasks)
    && (t in s.tasks ==> t < |s.built|)
    && (t < |s.built| && s.built[t].batch < |s.batches| ==>
          t in s.notFound || t in s.tasks || Holds(s, Builder(s, t), t))
  }

  /** A connection at a batch owns it, and the Forward it holds is of that batch and nowhere else. */
  predicate RunsAt(s: State, c: ConnId) {
    c in s.conns && (s.conns[c].pc.Dispatching? || s.conns[c].pc.Spawning?) ==>
      s.conns[c].pc.batch < |s.batches| && s.batches[s.conns[c].pc.batch].owner == c
  }

  predicate HeldAt(s: State, c: ConnId) {
    c in s.conns && s.conns[c].pc.Spawning? ==>
      var t := s.conns[c].pc.tag;
      && t < |s.built| && t !in s.notFound && t !in s.tasks
      && s.built[t].batch == s.conns[c].pc.batch
  }

  predicate DestAt(s: State, c: ConnId) {
    c in s.conns && s.conns[c].pc.Spawning? ==> Addressed(s, s.conns[c].pc.dest, s.conns[c].pc.tag)
  }

  /** What goes to a connection carries its identifier. */
  predicate Addressed(s: State, dest: ConnId, t: Tag) {
    t < |s.built| && dest in s.conns && s.conns[dest].id == s.built[t].to && Past(s.conns[dest].pc)
  }

  predicate TaskAt(s: State, t: Tag) {
    t in s.tasks ==> Addressed(s, s.tasks[t].dest, t)
  }

  predicate Runs(pc: Pc, b: nat) { (pc.Dispatching? || pc.Spawning?) && pc.batch == b }

  /** A batch is complete unless its owner is still at it. */
  predicate BatchAt(s: State, b: nat) {
    b < |s.batches| ==>
      && |s.batches[b].sent| <= |s.batches[b].ids|
      && (|s.batches[b].sent| == |s.batches[b].ids|
          || (s.batches[b].owner in s.conns && Runs(s.conns[s.batches[b].owner].pc, b)))
      && (forall i, j :: 0 <= i < j < |s.batches[b].ids| ==> s.batches[b].ids[i] != s.batches[b].ids[j])
  }

  /** Only a connection that has inserted itself has batches. */
  predicate OwnerAt(s: State, b: nat) {
    b < |s.batches| ==> s.batches[b].owner in s.conns && Past(s.conns[s.batches[b].owner].pc)
  }

  /** Turn `i` of a batch built one Forward, for its i-th target. */
  predicate TurnAt(s: State, b: nat, i: nat) {
    b < |s.batches| && i < |s.batches[b].sent| && i < |s.batches[b].ids| ==>
      var batch := s.batches[b];
      batch.sent[i] < |s.built| && s.built[batch.sent[i]] == Envelope(batch.from, batch.ids[i], batch.data, b, i)
  }

  predicate AcceptedAt(s: State, c: ConnId, t: Tag) {
    c in s.conns && t in s.conns[c].accepted ==> t in s.tasks && s.tasks[t].dest == c && InChannel(s.tasks[t].pc)
  }

  predicate SentAt(s: State, t: Tag) {
    t in s.tasks && InChannel(s.tasks[t].pc) ==>
      s.tasks[t].dest in s.conns && t in s.conns[s.tasks[t].dest].accepted
  }

  lemma JoinKeepsBatches(s: State, c: ConnId, step: JoinStep, t: Tag, k: ConnId, b: nat, i: nat)
    requires CanJoin(s, c, step)
    requires BuiltAt(s, t) && RunsAt(s, k) && BatchAt(s, b) && TurnAt(s, b, i) && SentAt(s, t)
    ensures var s' := DoJoin(s, c, step);
            BuiltAt(s', t) && RunsAt(s', k) && BatchAt(s', b) && TurnAt(s', b, i) && SentAt(s', t)
  {
  }

  lemma JoinKeepsRegistry(s: State, c: ConnId, step: JoinStep, p: PeerID)
    requires CanJoin(s, c, step) && RegistryAt(s, p)
    ensures RegistryAt(DoJoin(s, c, step), p)
  {
  }

  lemma JoinKeepsTags(s: State, c: ConnId, step: JoinStep, t: Tag, k: ConnId)
    requires CanJoin(s, c, step)
    requires TagAt(s, t) && BuiltAt(s, t) && AcceptedAt(s, k, t) && HeldAt(s, k)
    requires forall k :: k in s.conns ==> RunsAt(s, k) && HeldAt(s, k)
    requires forall k :: k in s.conns ==> HeldAt(s, k)
    requires forall t :: t in s.tasks || t in s.notFound ==> t < |s.built|
    ensures var s' := DoJoin(s, c, step);
            TagAt(s', t) && AcceptedAt(s', k, t) && HeldAt(s', k)
  {
  }

  lemma JoinKeepsDestinations(s: State, c: ConnId, step: JoinStep, t: Tag, k: ConnId)
    requires CanJoin(s, c, step)
    requires TaskAt(s, t) && DestAt(s, k)
    ensures var s' := DoJoin(s, c, step);
            TaskAt(s', t) && DestAt(s', k)
  {
  }

  lemma RouteKeepsOwners(s: State, c: ConnId, step: RouteStep, p: PeerID, k: ConnId, t: Tag)
    requires CanRoute(s, c, step)
    requires RegistryAt(s, p) && RunsAt(s, k) && SentAt(s, t)
    ensures var s' := DoRoute(s, c, step);
            RegistryAt(s', p) && RunsAt(s', k) && SentAt(s', t)
  {
  }

  lemma RouteKeepsBuilt(s: State, c: ConnId, step: RouteStep, t: Tag)
    requires CanRoute(s, c, step) && BuiltAt(s, t)
    ensures BuiltAt(DoRoute(s, c, step), t)
  {
  }

  lemma RouteKeepsTurns(s: State, c: ConnId, step: RouteStep, b: nat, i: nat)
    requires CanRoute(s, c, step) && TurnAt(s, b, i)
    ensures TurnAt(DoRoute(s, c, step), b, i)
  {
  }

  lemma RouteKeepsBatches(s: State, c: ConnId, step: RouteStep, b: nat)
    requires CanRoute(s, c, step)
    requires BatchAt(s, b)
    ensures var s' := DoRoute(s, c, step);
            BatchAt(s', b)
  {
  }

  lemma RouteKeepsTags(s: State, c: ConnId, step: RouteStep, t: Tag)
    requires CanRoute(s, c, step)
    requires TagAt(s, t) && BuiltAt(s, t)
    requires forall k :: k in s.conns ==> RunsAt(s, k) && HeldAt(s, k)
    ensures var s' := DoRoute(s, c, step);
            TagAt(s', t)
  {
  }

  lemma RouteKeepsHeld(s: State, c: ConnId, step: RouteStep, k: ConnId)
    requires CanRoute(s, c, step)
    requires HeldAt(s, k)
    requires forall t :: t in s.tasks || t in s.notFound ==> t < |s.built|
    requires forall k :: k in s.conns ==> RunsAt(s, k) && HeldAt(s, k)
    ensures var s' := DoRoute(s, c, step);
            HeldAt(s', k)
  {
  }

  lemma LookupKeepsDestinations(s: State, c: ConnId, k: ConnId)
    requires CanRoute(s, c, Lookup) && DestAt(s, k)
    requires forall p :: p in s.peers ==> RegistryAt(s, p)
    ensures DestAt(DoLookup(s, c), k)
  {
  }

  lemma RouteKeepsDestinations(s: State, c: ConnId, step: RouteStep, k: ConnId)
    requires CanRoute(s, c, step) && DestAt(s, k) && step != Lookup
    ensures DestAt(DoRoute(s, c, step), k)
  {
  }

  lemma RouteKeepsTasks(s: State, c: ConnId, step: RouteStep, t: Tag, k: ConnId)
    requires CanRoute(s, c, step)
    requires TaskAt(s, t) && AcceptedAt(s, k, t)
    requires forall k :: k in s.conns ==> DestAt(s, k)
    requires forall k :: k in s.conns ==> HeldAt(s, k)
    ensures var s' := DoRoute(s, c, step);
            TaskAt(s', t) && AcceptedAt(s', k, t)
  {
  }

  lemma ReceiveKeepsBatches(s: State, c: ConnId, action: Action, p: PeerID, t: Tag, k: ConnId, b: nat, i: nat)
    requires At(s, c, Selecting)
    requires RegistryAt(s, p) && BuiltAt(s, t) && RunsAt(s, k) && BatchAt(s, b) && TurnAt(s, b, i) && SentAt(s, t)
    ensures var s' := DoReceive(s, c, action);
            RegistryAt(s', p) && BuiltAt(s', t) && RunsAt(s', k) && BatchAt(s', b) && TurnAt(s', b, i) && SentAt(s', t)
  {
  }

  lemma ReceiveKeepsTags(s: State, c: ConnId, action: Action, t: Tag, k: ConnId)
    requires At(s, c, Selecting)
    requires TagAt(s, t) && BuiltAt(s, t) && AcceptedAt(s, k, t) && HeldAt(s, k)
    requires forall k :: k in s.conns ==> RunsAt(s, k) && HeldAt(s, k)
    requires forall k :: k in s.conns ==> HeldAt(s, k)
    requires forall t :: t in s.tasks || t in s.notFound ==> t < |s.built|
    ensures var s' := DoReceive(s, c, action);
            TagAt(s', t) && AcceptedAt(s', k, t) && HeldAt(s', k)
  {
  }

  lemma ReceiveKeepsDestinations(s: State, c: ConnId, action: Action, t: Tag, k: ConnId)
    requires At(s, c, Selecting)
    requires TaskAt(s, t) && DestAt(s, k)
    ensures var s' := DoReceive(s, c, action);
            TaskAt(s', t) && DestAt(s', k)
  {
  }

  lemma ServeKeepsTurns(s: State, c: ConnId, step: ServeStep, p: PeerID, t: Tag, b: nat, i: nat)
    requires CanServe(s, c, step)
    requires RegistryAt(s, p) && SentAt(s, t) && BuiltAt(s, t) && TurnAt(s, b, i)
    ensures var s' := DoServe(s, c, step);
            RegistryAt(s', p) && SentAt(s', t) && BuiltAt(s', t) && TurnAt(s', b, i)
  {
  }

  lemma ServeKeepsBatches(s: State, c: ConnId, step: ServeStep, b: nat, k: ConnId)
    requires CanServe(s, c, step)
    requires BatchAt(s, b) && RunsAt(s, k)
    ensures var s' := DoServe(s, c, step);
            BatchAt(s', b) && RunsAt(s', k)
  {
  }

  /** Connection `c` moved on, not from or to a spawn, and nothing was built, spawned or accepted. */
  ghost predicate MovesOn(s: State, s': State, c: ConnId) {
    && c in s.conns && c in s'.conns && s'.conns == s.conns[c := s'.conns[c]]
    && s'.conns[c].id == s.conns[c].id && s'.conns[c].accepted == s.conns[c].accepted
    && (Past(s.conns[c].pc) ==> Past(s'.conns[c].pc)) && !s.conns[c].pc.Spawning? && !s'.conns[c].pc.Spawning?
    && s'.built == s.built && s'.batches == s.batches && s'.tasks == s.tasks && s'.notFound == s.notFound
  }

  lemma ServeMovesOn(s: State, c: ConnId, step: ServeStep)
    requires CanServe(s, c, step)
    ensures MovesOn(s, DoServe(s, c, step), c)
  {
  }

  lemma MovingKeepsTags(s: State, s': State, c: ConnId, t: Tag, k: ConnId)
    requires MovesOn(s, s', c) && TagAt(s, t) && BuiltAt(s, t) && AcceptedAt(s, k, t) && HeldAt(s, k)
    ensures TagAt(s', t) && AcceptedAt(s', k, t) && HeldAt(s', k)
  {
  }

  lemma MovingKeepsDestinations(s: State, s': State, c: ConnId, t: Tag, k: ConnId)
    requires MovesOn(s, s', c) && DestAt(s, k) && TaskAt(s, t)
    ensures DestAt(s', k) && TaskAt(s', t)
  {
  }

  lemma SendKeepsBatches(s: State, tag: Tag, step: SendStep, p: PeerID, t: Tag, k: ConnId, b: nat, i: nat)
    requires CanSend(s, tag, step)
    requires RegistryAt(s, p) && BuiltAt(s, t) && RunsAt(s, k) && BatchAt(s, b) && TurnAt(s, b, i) && SentAt(s, t)
    requires forall k :: k in s.conns ==> RunsAt(s, k)
    requires forall t :: t in s.tasks || t in s.notFound ==> t < |s.built|
    ensures var s' := DoSend(s, tag, step);
            RegistryAt(s', p) && BuiltAt(s', t) && RunsAt(s', k) && BatchAt(s', b) && TurnAt(s', b, i) && SentAt(s', t)
  {
  }

  lemma SendKeepsTags(s: State, tag: Tag, step: SendStep, t: Tag, k: ConnId)
    requires CanSend(s, tag, step)
    requires TagAt(s, t) && HeldAt(s, k) && DestAt(s, k) && TaskAt(s, t) && AcceptedAt(s, k, t) && BuiltAt(s, t)
    requires forall k :: k in s.conns ==> DestAt(s, k) && HeldAt(s, k)
    requires forall t :: t in s.tasks || t in s.notFound ==> t < |s.built|
    requires forall p :: p in s.peers ==> RegistryAt(s, p)
    ensures var s' := DoSend(s, tag, step);
            TagAt(s', t) && HeldAt(s', k) && DestAt(s', k) && TaskAt(s', t) && AcceptedAt(s', k, t)
  {
  }

  lemma JoinKeepsOwner(s: State, c: ConnId, step: JoinStep, b: nat)
    requires CanJoin(s, c, step) && OwnerAt(s, b)
    ensures OwnerAt(DoJoin(s, c, step), b)
  {
  }

  lemma RouteKeepsOwner(s: State, c: ConnId, step: RouteStep, b: nat)
    requires CanRoute(s, c, step) && OwnerAt(s, b)
    ensures OwnerAt(DoRoute(s, c, step), b)
  {
  }

  lemma ReceiveKeepsOwner(s: State, c: ConnId, action: Action, b: nat)
    requires At(s, c, Selecting) && OwnerAt(s, b)
    ensures OwnerAt(DoReceive(s, c, action), b)
  {
  }

  lemma MovingKeepsOwner(s: State, s': State, c: ConnId, b: nat)
    requires MovesOn(s, s', c) && OwnerAt(s, b)
    ensures OwnerAt(s', b)
  {
  }

  lemma SendKeepsOwner(s: State, tag: Tag, step: SendStep, b: nat)
    requires CanSend(s, tag, step) && OwnerAt(s, b)
    ensures OwnerAt(DoSend(s, tag, step), b)
  {
  }

  // ----- the channel of each connection -----

  function InHand(conn: Conn): seq<Tag> { if conn.pc.Writing? then [conn.pc.tag] else [] }

  /** The channel bound, the fields each place in the code allows, and the channel's history: written, lost,
      in hand, queued and discarded messages, in that order, are what it accepted, each once. */
  ghost predicate ConnOk(conn: Conn) {
    && |conn.queue| <= CHANNEL_CAPACITY
    && !conn.pc.Unwound?
    && (conn.open <==> !conn.pc.Rejected? && !conn.pc.Closed?)
    && (conn.handler <==> conn.open)
    && (!conn.open ==> conn.queue == [])
    && (conn.discarded != [] ==> conn.pc.Closed?)
    && (conn.lost != [] ==> conn.pc.Removing? || conn.pc.Uncounting? || conn.pc.Closing? || conn.pc.Closed?)
    && conn.accepted == conn.written + conn.lost + InHand(conn) + conn.queue + conn.discarded
    && NoDuplicates(conn.accepted)
    && (!Past(conn.pc) ==> conn.accepted == [])
  }

  ghost predicate ChannelAt(s: State, k: ConnId) {
    k in s.conns ==> ConnOk(s.conns[k])
  }

  lemma PushKeeps(conn: Conn, tag: Tag)
    requires ConnOk(conn) && conn.open && |conn.queue| < CHANNEL_CAPACITY && tag !in conn.accepted && Past(conn.pc)
    ensures ConnOk(conn.Push(tag))
  {
    assert conn.Push(tag).accepted ==
           conn.written + conn.lost + InHand(conn) + (conn.queue + [tag]) + conn.discarded;
  }

  lemma PopKeeps(conn: Conn)
    requires ConnOk(conn) && conn.pc == Selecting && conn.queue != []
    ensures ConnOk(conn.Pop())
  {
    var w := conn.Pop();
    assert conn.queue == [conn.queue[0]] + w.queue;
    assert w.accepted == w.written + w.lost + InHand(w) + w.queue + w.discarded;
  }

  lemma WroteKeeps(conn: Conn, ok: bool)
    requires ConnOk(conn) && conn.pc.Writing?
    ensures ConnOk(conn.Wrote(ok))
  {
    var w := conn.Wrote(ok);
    assert w.accepted == w.written + w.lost + InHand(w) + w.queue + w.discarded;
  }

  lemma ShutKeeps(conn: Conn)
    requires ConnOk(conn) && conn.pc == Closing
    ensures ConnOk(conn.Shut())
  {
    var w := conn.Shut();
    assert w.accepted == w.written + w.lost + InHand(w) + w.queue + w.discarded;
  }

  /** Moving on without touching the channel. */
  lemma MoveKeeps(conn: Conn, pc: Pc)
    requires ConnOk(conn) && !conn.pc.Writing? && !pc.Writing?
    requires conn.open && !pc.Closed? && !pc.Rejected? && !pc.Unwound?
    requires Past(conn.pc) ==> Past(pc)
    requires conn.lost == [] || pc.Uncounting? || pc.Closing?
    ensures ConnOk(conn.(pc := pc))
  {
  }

  lemma ServeKeepsChannels(s: State, c: ConnId, step: ServeStep, k: ConnId)
    requires CanServe(s, c, step) && ChannelAt(s, k)
    ensures ChannelAt(DoServe(s, c, step), k)
  {
    if k == c {
      match step
      case Take => PopKeeps(s.conns[c]);
      case Write(ok) => WroteKeeps(s.conns[c], ok);
      case ReadError => MoveKeeps(s.conns[c], Removing);
      case Remove =>
        MoveKeeps(s.conns[c], Uncounting);
        MoveKeeps(s.conns[c], Closing);
      case Uncount => MoveKeeps(s.conns[c], Closing);
      case DropReceiver => ShutKeeps(s.conns[c]);
    }
  }

  lemma JoinKeepsChannels(s: State, c: ConnId, step: JoinStep, k: ConnId)
    requires CanJoin(s, c, step) && ChannelAt(s, k)
    ensures ChannelAt(DoJoin(s, c, step), k)
  {
    if k == c {
      match step
      case Connect(_) =>
      case Check => assert |s.conns[c].accepted| == 0;
      case Insert => MoveKeeps(s.conns[c], Counting);
      case Count(system) => MoveKeeps(s.conns[c], Collecting(system, NewPeer(s.conns[c].id)));
    }
  }

  lemma RouteKeepsChannels(s: State, c: ConnId, step: RouteStep, k: ConnId)
    requires CanRoute(s, c, step) && ChannelAt(s, k)
    ensures ChannelAt(DoRoute(s, c, step), k)
  {
    if k == c {
      MoveKeeps(s.conns[c], DoRoute(s, c, step).conns[c].pc);
    }
  }

  lemma ReceiveKeepsChannels(s: State, c: ConnId, action: Action, k: ConnId)
    requires At(s, c, Selecting) && ChannelAt(s, k)
    ensures ChannelAt(DoReceive(s, c, action), k)
  {
    if k == c && !action.Ignore? {
      MoveKeeps(s.conns[c], DoReceive(s, c, action).conns[c].pc);
    }
  }

  lemma SendKeepsChannels(s: State, tag: Tag, step: SendStep, k: ConnId)
    requires CanSend(s, tag, step) && ChannelAt(s, k) && AcceptedAt(s, k, tag) && TaskAt(s, tag)
    ensures ChannelAt(DoSend(s, tag, step), k)
  {
    if step == Enqueue && k == s.tasks[tag].dest {
      PushKeeps(s.conns[k], tag);
    }
  }

  // ----- the gauge and the counter -----

  ghost function WithPc(conns: map<ConnId, Conn>, pc: Pc): set<ConnId> {
    set c | c in conns && conns[c].pc == pc
  }

  /** The gauge is the size of the registry, plus the inserts that overwrote, less the connections between
      insert and increment, plus those between removal and decrement. */
  ghost predicate GaugeOk(s: State) {
    s.gauge == |s.peers| + s.overwrites - |WithPc(s.conns, Counting)| + |WithPc(s.conns, Uncounting)|
  }

  predicate IsAt(conns: map<ConnId, Conn>, c: ConnId, pc: Pc) { c in conns && conns[c].pc == pc }

  function One(b: bool): nat { if b then 1 else 0 }

  lemma Toggle<T>(a: set<T>, b: set<T>, x: T)
    requires a - {x} == b - {x}
    ensures |b| == |a| - One(x in a) + One(x in b)
  {
    assert a == if x in a then (a - {x}) + {x} else a - {x};
    assert b == if x in b then (b - {x}) + {x} else b - {x};
  }

  /** Only connection `c` moved, and the gauge moved with the registry and with where `c` was and is. */
  lemma GaugeFollows(s: State, s': State, c: ConnId)
    requires GaugeOk(s) && c in s'.conns && s'.conns == s.conns[c := s'.conns[c]]
    requires s'.gauge - s.gauge == |s'.peers| - |s.peers| + s'.overwrites - s.overwrites
                                   + One(IsAt(s.conns, c, Counting)) - One(IsAt(s'.conns, c, Counting))
                                   + One(IsAt(s'.conns, c, Uncounting)) - One(IsAt(s.conns, c, Uncounting))
    ensures GaugeOk(s')
  {
    Toggle(WithPc(s.conns, Counting), WithPc(s'.conns, Counting), c);
    Toggle(WithPc(s.conns, Uncounting), WithPc(s'.conns, Uncounting), c);
  }

  lemma JoinKeepsGauge(s: State, c: ConnId, step: JoinStep)
    requires CanJoin(s, c, step) && GaugeOk(s)
    ensures GaugeOk(DoJoin(s, c, step))
  {
    if step == Insert {
      InsertKeepsGauge(s, c);
    } else {
      GaugeFollows(s, DoJoin(s, c, step), c);
    }
  }

  lemma InsertKeepsGauge(s: State, c: ConnId)
    requires CanJoin(s, c, Insert) && GaugeOk(s)
    ensures GaugeOk(DoJoin(s, c, Insert))
  {
    var s' := DoJoin(s, c, Insert);
    InsertedSize(s.peers, s.conns[c].id, c);
    assert !IsAt(s.conns, c, Counting) && !IsAt(s.conns, c, Uncounting);
    assert IsAt(s'.conns, c, Counting) && !IsAt(s'.conns, c, Uncounting);
    GaugeFollows(s, s', c);
  }

  lemma InsertedSize(peers: map<PeerID, ConnId>, id: PeerID, c: ConnId)
    ensures |peers[id := c]| == |peers| + One(id !in peers)
  {
    assert peers[id := c].Keys == peers.Keys + {id};
  }

  lemma RouteKeepsGauge(s: State, c: ConnId, step: RouteStep)
    requires CanRoute(s, c, step) && GaugeOk(s)
    ensures GaugeOk(DoRoute(s, c, step))
  {
    assert s.conns == s.conns[c := s.conns[c]];
    GaugeFollows(s, DoRoute(s, c, step), c);
  }

  lemma ReceiveKeepsGauge(s: State, c: ConnId, action: Action)
    requires At(s, c, Selecting) && GaugeOk(s)
    ensures GaugeOk(DoReceive(s, c, action))
  {
    assert s.conns == s.conns[c := s.conns[c]];
    GaugeFollows(s, DoReceive(s, c, action), c);
  }

  lemma ServeKeepsGauge(s: State, c: ConnId, step: ServeStep)
    requires CanServe(s, c, step) && GaugeOk(s)
    ensures GaugeOk(DoServe(s, c, step))
  {
    if step == Remove {
      RemoveKeepsGauge(s, c);
    } else {
      GaugeFollows(s, DoServe(s, c, step), c);
    }
  }

  lemma RemoveKeepsGauge(s: State, c: ConnId)
    requires CanServe(s, c, Remove) && GaugeOk(s)
    ensures GaugeOk(DoServe(s, c, Remove))
  {
    var id := s.conns[c].id;
    if id in s.peers {
      assert (s.peers - {id}).Keys == s.peers.Keys - {id};
    }
    GaugeFollows(s, DoServe(s, c, Remove), c);
  }

  lemma EndKeepsGauge(s: State, c: ConnId, step: EndStep)
    requires CanEnd(s, c, step) && GaugeOk(s)
    ensures GaugeOk(DoEnd(s, c, step))
  {
    assert s.conns == s.conns[c := s.conns[c]];
    GaugeFollows(s, DoEnd(s, c, step), c);
  }

  lemma SendKeepsGauge(s: State, tag: Tag, step: SendStep)
    requires CanSend(s, tag, step) && GaugeOk(s)
    ensures GaugeOk(DoSend(s, tag, step))
  {
    var c := s.tasks[tag].dest;
    assert s.conns == s.conns[c := s.conns[c]];
    GaugeFollows(s, DoSend(s, tag, step), c);
  }

  ghost function CountedTo(s: State, p: PeerID): set<Tag> {
    set t | t in s.tasks && s.tasks[t].pc == Counted && t < |s.built| && s.built[t].to == p
  }

  /** A peer's sent counter reads the number of sends to it that have been counted. */
  ghost predicate CounterAt(s: State, p: PeerID) {
    Reading(s.sentTotal, p) == |CountedTo(s, p)|
  }

  lemma SendKeepsCounter(s: State, tag: Tag, step: SendStep, p: PeerID)
    requires CanSend(s, tag, step) && CounterAt(s, p)
    ensures CounterAt(DoSend(s, tag, step), p)
  {
    Toggle(CountedTo(s, p), CountedTo(DoSend(s, tag, step), p), tag);
  }

  lemma OthersKeepCounter(s: State, step: Step, p: PeerID)
    requires Enabled(s, step) && !step.Send? && CounterAt(s, p)
    requires forall t :: t in s.tasks ==> t < |s.built|
    requires forall k :: k in s.conns ==> HeldAt(s, k)
    ensures CounterAt(Apply(s, step), p)
  {
    match step {
      case Join(c, j) => JoinCountsNothing(s, c, j);
      case Route(c, r) => RouteCountsNothing(s, c, r);
      case Receive(c, frame) => assert CountsNothing(s, DoReceive(s, c, Interpret(frame)));
      case Serve(c, v) => ServeCountsNothing(s, c, v);
      case End(c, e) => assert CountsNothing(s, DoEnd(s, c, e));
    }
    CountedStays(s, Apply(s, step), p);
  }

  ghost predicate IsCounted(s: State, t: Tag) { t in s.tasks && s.tasks[t].pc == Counted }

  ghost predicate CountsNothing(s: State, s': State) {
    s'.sentTotal == s.sentTotal && s.built <= s'.built && forall t :: IsCounted(s', t) <==> IsCounted(s, t)
  }

  lemma JoinCountsNothing(s: State, c: ConnId, step: JoinStep)
    requires CanJoin(s, c, step)
    ensures CountsNothing(s, DoJoin(s, c, step))
  {
  }

  lemma ServeCountsNothing(s: State, c: ConnId, step: ServeStep)
    requires CanServe(s, c, step)
    ensures CountsNothing(s, DoServe(s, c, step))
  {
  }

  lemma RouteCountsNothing(s: State, c: ConnId, step: RouteStep)
    requires CanRoute(s, c, step) && HeldAt(s, c)
    ensures CountsNothing(s, DoRoute(s, c, step))
  {
  }

  lemma CountedStays(s: State, s': State, p: PeerID)
    requires CounterAt(s, p) && CountsNothing(s, s')
    requires forall t :: t in s.tasks ==> t < |s.built|
    ensures CounterAt(s', p)
  {
    forall t ensures t in CountedTo(s', p) <==> t in CountedTo(s, p) {
      assert IsCounted(s', t) <==> IsCounted(s, t);
    }
    assert CountedTo(s', p) == CountedTo(s, p);
  }

  // ----- the invariant -----

  /** Every invariant, at one peer identifier, tag, connection, batch and turn. */
  ghost predicate InvAt(s: State, p: PeerID, t: Tag, k: ConnId, b: nat, i: nat) {
    && RegistryAt(s, p) && CounterAt(s, p)
    && BuiltAt(s, t) && TagAt(s, t) && TaskAt(s, t) && SentAt(s, t)
    && RunsAt(s, k) && HeldAt(s, k) && DestAt(s, k) && ChannelAt(s, k) && AcceptedAt(s, k, t)
    && BatchAt(s, b) && OwnerAt(s, b) && TurnAt(s, b, i)
  }

  ghost predicate Inv(s: State) {
    GaugeOk(s) && forall p, t, k, b, i :: InvAt(s, p, t, k, b, i)
  }

  /** The side conditions of the lemmas above. */
  lemma Bounds(s: State)
    requires Inv(s)
    ensures forall t :: t in s.tasks || t in s.notFound ==> t < |s.built|
    ensures forall k :: k in s.conns ==> RunsAt(s, k) && HeldAt(s, k) && DestAt(s, k)
    ensures forall p :: p in s.peers ==> RegistryAt(s, p)
  {
    var p0 := FixedSizePeerID(0, []);
    forall t | t in s.tasks || t in s.notFound ensures t < |s.built| {
      assert InvAt(s, p0, t, 0, 0, 0);
    }
    forall k | k in s.conns ensures RunsAt(s, k) && HeldAt(s, k) && DestAt(s, k) {
      assert InvAt(s, p0, 0, k, 0, 0);
    }
    forall p | p in s.peers ensures RegistryAt(s, p) {
      assert InvAt(s, p, 0, 0, 0, 0);
    }
  }

  lemma JoinKeepsAt(s: State, c: ConnId, step: JoinStep, p: PeerID, t: Tag, k: ConnId, b: nat, i: nat)
    requires Inv(s) && CanJoin(s, c, step)
    ensures InvAt(DoJoin(s, c, step), p, t, k, b, i)
  {
    Bounds(s);
    assert InvAt(s, p, t, k, b, i);
    JoinKeepsRegistry(s, c, step, p);
    JoinKeepsOwner(s, c, step, b);
    JoinKeepsBatches(s, c, step, t, k, b, i);
    JoinKeepsTags(s, c, step, t, k);
    JoinKeepsDestinations(s, c, step, t, k);
    JoinKeepsChannels(s, c, step, k);
    OthersKeepCounter(s, Join(c, step), p);
  }

  lemma RouteKeepsAt(s: State, c: ConnId, step: RouteStep, p: PeerID, t: Tag, k: ConnId, b: nat, i: nat)
    requires Inv(s) && CanRoute(s, c, step)
    ensures InvAt(DoRoute(s, c, step), p, t, k, b, i)
  {
    Bounds(s);
    assert InvAt(s, p, t, k, b, i);
    RouteKeepsOwners(s, c, step, p, k, t);
    RouteKeepsOwner(s, c, step, b);
    RouteKeepsBuilt(s, c, step, t);
    RouteKeepsTurns(s, c, step, b, i);
    RouteKeepsBatches(s, c, step, b);
    RouteKeepsTags(s, c, step, t);
    RouteKeepsHeld(s, c, step, k);
    if step == Lookup {
      LookupKeepsDestinations(s, c, k);
    } else {
      RouteKeepsDestinations(s, c, step, k);
    }
    RouteKeepsTasks(s, c, step, t, k);
    RouteKeepsChannels(s, c, step, k);
    OthersKeepCounter(s, Route(c, step), p);
  }

  lemma ReceiveKeepsAt(s: State, c: ConnId, frame: Frame, p: PeerID, t: Tag, k: ConnId, b: nat, i: nat)
    requires Inv(s) && Enabled(s, Receive(c, frame))
    ensures InvAt(DoReceive(s, c, Interpret(frame)), p, t, k, b, i)
  {
    var action := Interpret(frame);
    Bounds(s);
    assert InvAt(s, p, t, k, b, i);
    ReceiveKeepsBatches(s, c, action, p, t, k, b, i);
    ReceiveKeepsOwner(s, c, action, b);
    ReceiveKeepsTags(s, c, action, t, k);
    ReceiveKeepsDestinations(s, c, action, t, k);
    ReceiveKeepsChannels(s, c, action, k);
    OthersKeepCounter(s, Receive(c, frame), p);
  }

  lemma ServeKeepsAt(s: State, c: ConnId, step: ServeStep, p: PeerID, t: Tag, k: ConnId, b: nat, i: nat)
    requires Inv(s) && CanServe(s, c, step)
    ensures InvAt(DoServe(s, c, step), p, t, k, b, i)
  {
    Bounds(s);
    assert InvAt(s, p, t, k, b, i);
    ServeKeepsTurns(s, c, step, p, t, b, i);
    ServeKeepsBatches(s, c, step, b, k);
    ServeMovesOn(s, c, step);
    MovingKeepsOwner(s, DoServe(s, c, step), c, b);
    MovingKeepsTags(s, DoServe(s, c, step), c, t, k);
    MovingKeepsDestinations(s, DoServe(s, c, step), c, t, k);
    ServeKeepsChannels(s, c, step, k);
    OthersKeepCounter(s, Serve(c, step), p);
  }

  /** The loop of a connection holds a handler of its own, so that its channel does not end before it. */
  lemma OwnHandlerHolds(s: State, c: ConnId)
    requires Inv(s) && At(s, c, Selecting)
    ensures HoldsSender(s, c, OwnLoop) && !ChannelEnded(s, c)
  {
    assert InvAt(s, FixedSizePeerID(0, []), 0, c, 0, 0);
  }

  lemma ReadEndKeepsBatches(s: State, c: ConnId, p: PeerID, t: Tag, k: ConnId, b: nat, i: nat)
    requires CanEnd(s, c, ReadEnds)
    requires RegistryAt(s, p) && BuiltAt(s, t) && SentAt(s, t) && RunsAt(s, k) && BatchAt(s, b) && TurnAt(s, b, i)
    ensures var s' := DoEnd(s, c, ReadEnds);
            RegistryAt(s', p) && BuiltAt(s', t) && SentAt(s', t) && RunsAt(s', k) && BatchAt(s', b) && TurnAt(s', b, i)
  {
  }

  lemma ReadEndKeepsAt(s: State, c: ConnId, p: PeerID, t: Tag, k: ConnId, b: nat, i: nat)
    requires Inv(s) && CanEnd(s, c, ReadEnds)
    ensures InvAt(DoEnd(s, c, ReadEnds), p, t, k, b, i)
  {
    var s' := DoEnd(s, c, ReadEnds);
    assert InvAt(s, p, t, k, b, i);
    assert MovesOn(s, s', c);
    ReadEndKeepsBatches(s, c, p, t, k, b, i);
    MovingKeepsOwner(s, s', c, b);
    MovingKeepsTags(s, s', c, t, k);
    MovingKeepsDestinations(s, s', c, t, k);
    assert CountedTo(s', p) == CountedTo(s, p);
  }

  lemma EndKeepsAt(s: State, c: ConnId, step: EndStep, p: PeerID, t: Tag, k: ConnId, b: nat, i: nat)
    requires Inv(s) && CanEnd(s, c, step)
    ensures InvAt(DoEnd(s, c, step), p, t, k, b, i)
  {
    if step == ReadEnds {
      ReadEndKeepsAt(s, c, p, t, k, b, i);
    } else {
      OwnHandlerHolds(s, c);
    }
  }

  lemma SendKeepsAt(s: State, tag: Tag, step: SendStep, p: PeerID, t: Tag, k: ConnId, b: nat, i: nat)
    requires Inv(s) && CanSend(s, tag, step)
    ensures InvAt(DoSend(s, tag, step), p, t, k, b, i)
  {
    Bounds(s);
    assert InvAt(s, p, t, k, b, i);
    assert InvAt(s, p, tag, k, b, i);
    SendKeepsBatches(s, tag, step, p, t, k, b, i);
    SendKeepsTags(s, tag, step, t, k);
    SendKeepsOwner(s, tag, step, b);
    SendKeepsChannels(s, tag, step, k);
    SendKeepsCounter(s, tag, step, p);
  }

  lemma StepKeepsGauge(s: State, step: Step)
    requires Enabled(s, step) && GaugeOk(s)
    ensures GaugeOk(Apply(s, step))
  {
    match step
    case Join(c, j) => JoinKeepsGauge(s, c, j);
    case Route(c, r) => RouteKeepsGauge(s, c, r);
    case Receive(c, frame) => ReceiveKeepsGauge(s, c, Interpret(frame));
    case Serve(c, v) => ServeKeepsGauge(s, c, v);
    case End(c, e) => EndKeepsGauge(s, c, e);
    case Send(tag, d) => SendKeepsGauge(s, tag, d);
  }

  /** Every step of every connection and every task keeps the invariant. */
  lemma StepKeepsInv(s: State, step: Step)
    requires Inv(s) && Enabled(s, step)
    ensures Inv(Apply(s, step))
  {
    StepKeepsGauge(s, step);
    forall p, t, k, b, i ensures InvAt(Apply(s, step), p, t, k, b, i) {
      match step
      case Join(c, j) => JoinKeepsAt(s, c, j, p, t, k, b, i);
      case Route(c, r) => RouteKeepsAt(s, c, r, p, t, k, b, i);
      case Receive(c, frame) => ReceiveKeepsAt(s, c, frame, p, t, k, b, i);
      case Serve(c, v) => ServeKeepsAt(s, c, v, p, t, k, b, i);
      case End(c, e) => EndKeepsAt(s, c, e, p, t, k, b, i);
      case Send(tag, d) => SendKeepsAt(s, tag, d, p, t, k, b, i);
    }
  }

  lemma InitSatisfiesInv()
    ensures Inv(INIT)
  {
    assert WithPc(INIT.conns, Counting) == {} && WithPc(INIT.conns, Uncounting) == {};
    forall p, t, k, b, i ensures InvAt(INIT, p, t, k, b, i) {
      assert CountedTo(INIT, p) == {};
    }
  }

  /** The invariant holds after every run. */
  lemma {:induction false} RunKeepsInv(run: seq<Step>)
    requires After(run).Some?
    ensures Inv(After(run).value)
  {
    if run == [] {
      InitSatisfiesInv();
    } else {
      RunKeepsInv(run[..|run| - 1]);
      StepKeepsInv(After(run[..|run| - 1]).value, run[|run| - 1]);
    }
  }
}
