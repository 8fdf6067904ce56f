/** What a broadcast reaches, over whole runs. */
module SignallingBroadcast {
  import opened Bytes
  import opened PeerIdentity
  import opened Signalling
  import opened SignallingInvariants
  import opened SignallingTheorems
  import opened SignallingLifecycle

  /** What no step changes about a batch: its targets and contents, and what it has already sent. */
  ghost predicate Continues(s: State, s': State, b: nat)
    requires b < |s.batches|
  {
    && b < |s'.batches|
    && s'.batches[b] == s.batches[b].(sent := s'.batches[b].sent)
    && s.batches[b].sent <= s'.batches[b].sent
  }

  lemma RouteContinues(s: State, c: ConnId, step: RouteStep, b: nat)
    requires CanRoute(s, c, step) && b < |s.batches|
    ensures Continues(s, DoRoute(s, c, step), b)
  {
  }

  lemma ServeContinues(s: State, c: ConnId, step: ServeStep, b: nat)
    requires CanServe(s, c, step) && b < |s.batches|
    ensures Continues(s, DoServe(s, c, step), b)
  {
  }

  lemma BatchContinues(s: State, step: Step, b: nat)
    requires Enabled(s, step) && b < |s.batches|
    ensures Continues(s, Apply(s, step), b)
  {
    match step
    case Join(c, j) =>
    case Route(c, r) => RouteContinues(s, c, r, b);
    case Receive(c, frame) =>
    case Serve(c, v) => ServeContinues(s, c, v, b);
    case End(c, e) =>
    case Send(tag, d) =>
  }

  /** The step that started a batch: a broadcast lists the registry of that moment, a forward names one target. */
  ghost predicate Starts(s: State, step: Step, batch: Batch) {
    && Enabled(s, step)
    && (step == Route(batch.owner, Collect(batch.ids))
        || (step.Receive? && step.c == batch.owner && |batch.ids| == 1
            && step.frame == Text(Some(Forward(batch.from, Some(batch.ids[0]), batch.data)))))
  }

  lemma RouteStarts(s: State, c: ConnId, step: RouteStep)
    requires CanRoute(s, c, step) && |s.batches| < |DoRoute(s, c, step).batches|
    ensures Starts(s, Route(c, step), DoRoute(s, c, step).batches[|s.batches|])
    ensures |DoRoute(s, c, step).batches| == |s.batches| + 1
  {
  }

  lemma ReceiveStarts(s: State, c: ConnId, frame: Frame)
    requires Enabled(s, Receive(c, frame)) && |s.batches| < |DoReceive(s, c, Interpret(frame)).batches|
    ensures Starts(s, Receive(c, frame), DoReceive(s, c, Interpret(frame)).batches[|s.batches|])
    ensures |DoReceive(s, c, Interpret(frame)).batches| == |s.batches| + 1
  {
    match frame
    case Text(Some(Forward(from, Some(to), data))) =>
    case _ =>
  }

  lemma OnlyTheseStart(s: State, step: Step)
    requires Enabled(s, step) && !step.Route? && !step.Receive?
    ensures Apply(s, step).batches == s.batches
  {
    match step
    case Join(c, j) => assert DoJoin(s, c, j).batches == s.batches;
    case Serve(c, v) => assert DoServe(s, c, v).batches == s.batches;
    case End(c, e) => assert DoEnd(s, c, e).batches == s.batches;
    case Send(tag, d) => assert DoSend(s, tag, d).batches == s.batches;
  }

  lemma StartsBatch(s: State, step: Step)
    requires Enabled(s, step) && |s.batches| < |Apply(s, step).batches|
    ensures Starts(s, step, Apply(s, step).batches[|s.batches|])
    ensures |Apply(s, step).batches| == |s.batches| + 1
  {
    if step.Route? {
      RouteStarts(s, step.c, step.route);
    } else if step.Receive? {
      ReceiveStarts(s, step.c, step.frame);
    } else {
      OnlyTheseStart(s, step);
    }
  }

  lemma {:induction false} StartOf(run: seq<Step>, b: nat) returns (k: nat)
    requires After(run).Some? && b < |After(run).value.batches|
    ensures k < |run| && |Before(run, k).batches| == b
    ensures Starts(Before(run, k), run[k], After(run).value.batches[b])
  {
    var n := |run| - 1;
    var s := Before(run, n);
    if b < |s.batches| {
      k := StartOf(run[..n], b);
      assert run[..n][..k] == run[..k];
      BatchContinues(s, run[n], b);
    } else {
      k := n;
      StartsBatch(s, run[n]);
    }
  }

  /** The Forward built for turn `j` of a batch. */
  ghost predicate SentFor(s: State, b: nat, j: nat, t: Tag) {
    t < |s.built| && b < |s.batches| && j < |s.batches[b].ids|
    && s.built[t] == Envelope(s.batches[b].from, s.batches[b].ids[j], s.batches[b].data, b, j)
  }

  /** A batch its owner has left has built exactly one Forward for each of its targets and nothing else, each
      addressed to its target; the targets are those listed by the step that started it, each once. */
  lemma BroadcastCovers(run: seq<Step>, b: nat) returns (k: nat)
    requires After(run).Some? && b < |After(run).value.batches|
    requires var s := After(run).value;
             var owner := s.batches[b].owner;
             owner in s.conns && !Runs(s.conns[owner].pc, b)
    ensures k < |run| && |Before(run, k).batches| == b
    ensures Starts(Before(run, k), run[k], After(run).value.batches[b])
    ensures var s := After(run).value;
            && NoDuplicates(s.batches[b].ids)
            && |s.batches[b].sent| == |s.batches[b].ids|
            && (forall j :: 0 <= j < |s.batches[b].ids| ==> SentFor(s, b, j, s.batches[b].sent[j]))
            && (forall t :: 0 <= t < |s.built| && s.built[t].batch == b ==>
                  s.built[t].turn < |s.batches[b].sent| && t == s.batches[b].sent[s.built[t].turn])
  {
    k := StartOf(run, b);
    RunKeepsInv(run);
    var s := After(run).value;
    var p0 := FixedSizePeerID(0, []);
    assert InvAt(s, p0, 0, 0, b, 0);
    forall j | 0 <= j < |s.batches[b].ids| ensures SentFor(s, b, j, s.batches[b].sent[j]) {
      assert InvAt(s, p0, 0, 0, b, j);
    }
    forall t | 0 <= t < |s.built| && s.built[t].batch == b
      ensures s.built[t].turn < |s.batches[b].sent| && t == s.batches[b].sent[s.built[t].turn]
    {
      assert InvAt(s, p0, t, 0, 0, 0);
    }
  }

  // ----- every arrival is announced to everyone there -----

  predicate ListsBy(step: Step, c: ConnId) { step.Route? && step.c == c && step.route.Collect? }

  ghost predicate Unlisted(run: seq<Step>, c: ConnId) { forall i :: 0 <= i < |run| ==> !ListsBy(run[i], c) }

  /** Step `k` is the first by which `c` lists the registry: its arrival, before anything its client asks for. */
  ghost predicate FirstListing(run: seq<Step>, c: ConnId, k: nat) {
    After(run).Some? && k < |run| && ListsBy(run[k], c) && Unlisted(run[..k], c)
  }

  /** A connection up to its first listing. */
  predicate Early(conn: Conn) {
    || conn.pc == Checking || conn.pc == Rejected || conn.pc == Inserting || conn.pc == Counting
    || (conn.pc.Collecting? && conn.pc.data == NewPeer(conn.id))
  }

  predicate EarlyIn(s: State, c: ConnId) { c in s.conns ==> Early(s.conns[c]) }

  lemma JoinStaysEarly(s: State, k: ConnId, step: JoinStep, c: ConnId)
    requires CanJoin(s, k, step) && EarlyIn(s, c)
    ensures EarlyIn(DoJoin(s, k, step), c)
  {
  }

  lemma RouteStaysEarly(s: State, k: ConnId, step: RouteStep, c: ConnId)
    requires CanRoute(s, k, step) && EarlyIn(s, c) && !ListsBy(Route(k, step), c)
    ensures EarlyIn(DoRoute(s, k, step), c)
  {
  }

  lemma ServeStaysEarly(s: State, k: ConnId, step: ServeStep, c: ConnId)
    requires CanServe(s, k, step) && EarlyIn(s, c)
    ensures EarlyIn(DoServe(s, k, step), c)
  {
  }

  lemma SendStaysEarly(s: State, tag: Tag, step: SendStep, c: ConnId)
    requires CanSend(s, tag, step) && EarlyIn(s, c)
    ensures EarlyIn(DoSend(s, tag, step), c)
  {
  }

  lemma StepStaysEarly(s: State, step: Step, c: ConnId)
    requires Enabled(s, step) && EarlyIn(s, c) && !ListsBy(step, c)
    ensures EarlyIn(Apply(s, step), c)
  {
    match step
    case Join(k, j) => JoinStaysEarly(s, k, j, c);
    case Route(k, r) => RouteStaysEarly(s, k, r, c);
    case Receive(k, frame) => assert EarlyIn(DoReceive(s, k, Interpret(frame)), c);
    case Serve(k, v) => ServeStaysEarly(s, k, v, c);
    case End(k, e) => assert EarlyIn(DoEnd(s, k, e), c);
    case Send(tag, d) => SendStaysEarly(s, tag, d, c);
  }

  lemma {:induction false} EarlyUntilListed(run: seq<Step>, c: ConnId)
    requires After(run).Some? && Unlisted(run, c)
    ensures EarlyIn(After(run).value, c)
  {
    if run != [] {
      var prefix := run[..|run| - 1];
      EarlyUntilListed(prefix, c);
      StepStaysEarly(After(prefix).value, run[|run| - 1], c);
    }
  }

  /** No connection gets past its arrival, to its select loop or anywhere else, without having listed the registry. */
  lemma {:induction false} ListingOf(run: seq<Step>, c: ConnId) returns (k: nat)
    requires After(run).Some? && c in After(run).value.conns && !Early(After(run).value.conns[c])
    ensures FirstListing(run, c, k)
  {
    if Unlisted(run, c) {
      EarlyUntilListed(run, c);
      assert false;
    }
    k := FirstOf(run, c);
  }

  lemma {:induction false} FirstOf(run: seq<Step>, c: ConnId) returns (k: nat)
    requires !Unlisted(run, c)
    ensures k < |run| && ListsBy(run[k], c) && Unlisted(run[..k], c)
  {
    var n := |run| - 1;
    if Unlisted(run[..n], c) {
      k := n;
    } else {
      k := FirstOf(run[..n], c);
      assert run[..n][..k] == run[..k];
    }
  }

  /** The first listing is made to announce the connection itself. */
  lemma FirstListingAnnounces(run: seq<Step>, c: ConnId, k: nat)
    requires FirstListing(run, c, k)
    ensures var s := Before(run, k);
            && c in s.conns && s.conns[c].pc.Collecting? && s.conns[c].pc.data == NewPeer(s.conns[c].id)
            && Enumerates(run[k].route.ids, s.peers)
  {
    var s := Before(run, k);
    EarlyUntilListed(run[..k], c);
  }

  /** An arrival is announced in the name chosen when the connection was counted. */
  lemma {:induction false} SenderOfArrival(run: seq<Step>, c: ConnId) returns (i: nat)
    requires After(run).Some? && Unlisted(run, c)
    requires c in After(run).value.conns && After(run).value.conns[c].pc.Collecting?
    ensures i < |run| && run[i] == Join(c, Count(After(run).value.conns[c].pc.from))
  {
    var n := |run| - 1;
    var s := Before(run, n);
    EarlyUntilListed(run[..n], c);
    CollectsAfterCount(s, run[n], c);
    if run[n].Join? && run[n].c == c {
      i := n;
    } else {
      i := SenderOfArrival(run[..n], c);
    }
  }

  /** Connection `c` is as it was, if it is collecting. */
  ghost predicate CollectsStill(s: State, s': State, c: ConnId) {
    c in s'.conns && s'.conns[c].pc.Collecting? ==>
      c in s.conns && s.conns[c].pc.Collecting? && s.conns[c].pc.from == s'.conns[c].pc.from
  }

  lemma CollectsAfterCount(s: State, step: Step, c: ConnId)
    requires Enabled(s, step) && EarlyIn(s, c)
    requires c in Apply(s, step).conns && Apply(s, step).conns[c].pc.Collecting?
    ensures if step.Join? && step.c == c then step.join == Count(Apply(s, step).conns[c].pc.from)
            else CollectsStill(s, Apply(s, step), c)
  {
    match step
    case Join(k, j) => JoinCollects(s, k, j, c);
    case Route(k, r) => RouteCollects(s, k, r, c);
    case Receive(k, frame) => assert CollectsStill(s, DoReceive(s, k, Interpret(frame)), c);
    case Serve(k, v) => ServeCollects(s, k, v, c);
    case End(k, e) => assert CollectsStill(s, DoEnd(s, k, e), c);
    case Send(tag, d) => SendCollects(s, tag, d, c);
  }

  lemma JoinCollects(s: State, k: ConnId, step: JoinStep, c: ConnId)
    requires CanJoin(s, k, step)
    requires c in DoJoin(s, k, step).conns && DoJoin(s, k, step).conns[c].pc.Collecting?
    ensures if k == c then step == Count(DoJoin(s, k, step).conns[c].pc.from) else CollectsStill(s, DoJoin(s, k, step), c)
  {
  }

  lemma SendCollects(s: State, tag: Tag, step: SendStep, c: ConnId)
    requires CanSend(s, tag, step)
    ensures CollectsStill(s, DoSend(s, tag, step), c)
  {
  }

  lemma RouteCollects(s: State, k: ConnId, step: RouteStep, c: ConnId)
    requires CanRoute(s, k, step)
    ensures CollectsStill(s, DoRoute(s, k, step), c)
  {
  }

  lemma ServeCollects(s: State, k: ConnId, step: ServeStep, c: ConnId)
    requires CanServe(s, k, step)
    ensures CollectsStill(s, DoServe(s, k, step), c)
  {
  }

  lemma {:induction false} IdStays(run: seq<Step>, c: ConnId, k: nat)
    requires After(run).Some? && k < |run| && c in Before(run, k).conns
    ensures c in After(run).value.conns && After(run).value.conns[c].id == Before(run, k).conns[c].id
  {
    var n := |run| - 1;
    var s := Before(run, n);
    if k < n {
      assert run[..n][..k] == run[..k];
      IdStays(run[..n], c, k);
    }
    HistoryGrows(s, run[n], c);
  }

  /** The batch started by a listing, as it was started: in whose name, of what, and for whom. */
  lemma {:induction false} ListedBatch(run: seq<Step>, c: ConnId, k: nat)
    requires After(run).Some? && k < |run| && ListsBy(run[k], c)
    ensures var before := Before(run, k);
            var s, b := After(run).value, |before.batches|;
            && c in before.conns && before.conns[c].pc.Collecting? && Enumerates(run[k].route.ids, before.peers)
            && b < |s.batches| && s.batches[b].owner == c && s.batches[b].ids == run[k].route.ids
            && s.batches[b].from == before.conns[c].pc.from && s.batches[b].data == before.conns[c].pc.data
  {
    var n := |run| - 1;
    var s := Before(run, n);
    if k < n {
      assert run[..n][..k] == run[..k];
      ListedBatch(run[..n], c, k);
      BatchContinues(s, run[n], |Before(run, k).batches|);
    } else {
      ListingStarts(s, c, run[k].route.ids);
    }
  }

  lemma ListingStarts(s: State, c: ConnId, ids: seq<PeerID>)
    requires CanRoute(s, c, Collect(ids))
    ensures DoRoute(s, c, Collect(ids)).batches == s.batches + [Batch(c, s.conns[c].pc.from, s.conns[c].pc.data, ids, [])]
  {
  }

  /** The announcement of `c`, started by its first listing, is over. */
  ghost predicate Announced(run: seq<Step>, c: ConnId, k: nat) {
    FirstListing(run, c, k) && c in After(run).value.conns
    && !Runs(After(run).value.conns[c].pc, |Before(run, k).batches|)
  }

  /** Of the announcement of `c`, exactly one Forward is for `p`. */
  ghost predicate ToldOnce(s: State, b: nat, p: PeerID, t: Tag) {
    && t < |s.built| && s.built[t].batch == b && s.built[t].to == p
    && forall u: Tag :: u < |s.built| && s.built[u].batch == b && s.built[u].to == p ==> u == t
  }

  /** When its announcement is over, whatever the connection does since, every peer registered when it arrived has been
      sent its NewPeer exactly once, in the name chosen when the connection was counted, at a lookup of its own: the
      Forward goes to the connection registered for that peer at that moment, or nowhere if there is none. Nobody else
      has been sent it. */
  lemma ArrivalIsAnnounced(run: seq<Step>, c: ConnId, k: nat, p: PeerID) returns (i: nat, l: nat, t: Tag)
    requires Announced(run, c, k)
    ensures i < k && run[i].Join? && run[i].c == c && run[i].join.Count?
    ensures var s, b := After(run).value, |Before(run, k).batches|;
            && (p in Before(run, k).peers ==>
                  && ToldOnce(s, b, p, t)
                  && s.built[t].data == NewPeer(s.conns[c].id) && s.built[t].from == run[i].join.system
                  && l < |run| && run[l] == Route(c, Lookup) && Decided(Before(run, l), s, t))
            && (p !in Before(run, k).peers ==> forall u: Tag :: u < |s.built| && s.built[u].batch == b ==> s.built[u].to != p)
  {
    FirstListingAnnounces(run, c, k);
    ListedBatch(run, c, k);
    IdStays(run, c, k);
    i := SenderOfArrival(run[..k], c);
    var b := |Before(run, k).batches|;
    l, t := 0, 0;
    if p in Before(run, k).peers {
      t := TargetIsSent(run, b, p);
      l := DecidedAtLookup(run, t);
    } else {
      OnlyTargetsAreSent(run, b, p);
    }
  }

  /** A target of a finished batch has one Forward of that batch. */
  lemma TargetIsSent(run: seq<Step>, b: nat, p: PeerID) returns (t: Tag)
    requires After(run).Some? && b < |After(run).value.batches| && p in After(run).value.batches[b].ids
    requires var s := After(run).value;
             var owner := s.batches[b].owner;
             owner in s.conns && !Runs(s.conns[owner].pc, b)
    ensures ToldOnce(After(run).value, b, p, t)
    ensures After(run).value.built[t].data == After(run).value.batches[b].data
    ensures After(run).value.built[t].from == After(run).value.batches[b].from
  {
    var start := BroadcastCovers(run, b);
    var s := After(run).value;
    var j :| 0 <= j < |s.batches[b].ids| && s.batches[b].ids[j] == p;
    t := s.batches[b].sent[j];
    assert SentFor(s, b, j, t);
    forall u: Tag | u < |s.built| && s.built[u].batch == b && s.built[u].to == p ensures u == t {
      assert SentFor(s, b, s.built[u].turn, s.batches[b].sent[s.built[u].turn]);
    }
  }

  lemma OnlyTargetsAreSent(run: seq<Step>, b: nat, p: PeerID)
    requires After(run).Some? && b < |After(run).value.batches| && p !in After(run).value.batches[b].ids
    ensures var s := After(run).value;
            forall u: Tag :: u < |s.built| && s.built[u].batch == b ==> s.built[u].to != p
  {
    RunKeepsInv(run);
    var s := After(run).value;
    var p0 := FixedSizePeerID(0, []);
    forall u: Tag | u < |s.built| && s.built[u].batch == b ensures s.built[u].to != p {
      assert InvAt(s, p0, u, 0, b, s.built[u].turn);
    }
  }

  /** Where no insert ever found its identifier taken, a connection is told of its own arrival: one of the Forwards
      announcing it is spawned, to itself. */
  lemma HearsOfItself(run: seq<Step>, c: ConnId, k: nat) returns (t: Tag)
    requires Announced(run, c, k) && After(run).value.overwrites == 0
    ensures var s := After(run).value;
            && ToldOnce(s, |Before(run, k).batches|, s.conns[c].id, t)
            && s.built[t].data == NewPeer(s.conns[c].id)
            && t in s.tasks && s.tasks[t].dest == c
  {
    var p := After(run).value.conns[c].id;
    RegisteredAt(run, c, k);
    var i, l;
    i, l, t := ArrivalIsAnnounced(run, c, k, p);
    RegisteredAt(run, c, l);
    RunKeepsInv(run);
    ListedBatch(run, c, k);
    assert InvAt(After(run).value, p, t, c, 0, 0);
  }

  /** A connection at a step of its own in its loop or on the way there is the registered one. */
  lemma RegisteredAt(run: seq<Step>, c: ConnId, k: nat)
    requires After(run).Some? && After(run).value.overwrites == 0
    requires k < |run| && run[k].Route? && run[k].c == c
    ensures c in After(run).value.conns && Registered(Before(run, k), After(run).value.conns[c].id, c)
  {
    OverwritesGrow(run, k);
    RunKeepsSole(run[..k]);
    assert SoleAt(Before(run, k), c);
    IdStays(run, c, k);
  }
}
