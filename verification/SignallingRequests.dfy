/** What a client's frames lead to, over whole runs. */
module SignallingRequests {
  import opened Bytes
  import opened PeerIdentity
  import opened Signalling
  import opened SignallingInvariants
  import opened SignallingTheorems
  import opened SignallingLifecycle
  import opened SignallingBroadcast

  // ----- one frame -----

  function ForwardTo(from: PeerID, to: PeerID, data: PeerEvent): Frame { Text(Some(Forward(from, Some(to), data))) }

  function ForwardToAll(from: PeerID, data: PeerEvent): Frame { Text(Some(Forward(from, None, data))) }

  /** A request with a target starts the dispatch of its contents to that target, in the name it gives. */
  lemma ForwardStarts(s: State, c: ConnId, from: PeerID, to: PeerID, data: PeerEvent)
    requires Enabled(s, Receive(c, ForwardTo(from, to, data)))
    ensures Apply(s, Receive(c, ForwardTo(from, to, data))) ==
            s.(conns := s.conns[c := s.conns[c].(pc := Dispatching(|s.batches|))],
               batches := s.batches + [Batch(c, from, data, [to], [])])
  {
  }

  /** A request without one makes the connection list the registry, in its own name. */
  lemma BroadcastStarts(s: State, c: ConnId, from: PeerID, data: PeerEvent)
    requires Enabled(s, Receive(c, ForwardToAll(from, data)))
    ensures Apply(s, Receive(c, ForwardToAll(from, data))) ==
            s.(conns := s.conns[c := s.conns[c].(pc := Collecting(s.conns[c].id, data))])
  {
  }

  /** Close leaves the loop, and nothing else a client sends does anything. */
  lemma OtherFrames(s: State, c: ConnId, frame: Frame)
    requires Enabled(s, Receive(c, frame))
    ensures frame.Close? ==> Apply(s, Receive(c, frame)) == s.(conns := s.conns[c := s.conns[c].(pc := Removing)])
    ensures frame.Binary? || frame.Ping? || frame.Pong? || frame == Text(None) || frame == Text(Some(KeepAlive)) ==>
              Apply(s, Receive(c, frame)) == s
  {
  }

  // ----- a request with a target -----

  lemma {:induction false} StartedByForward(run: seq<Step>, c: ConnId, k: nat, from: PeerID, to: PeerID, data: PeerEvent)
    requires After(run).Some? && k < |run| && run[k] == Receive(c, ForwardTo(from, to, data))
    ensures var s, b := After(run).value, |Before(run, k).batches|;
            && b < |s.batches| && s.batches[b].owner == c && s.batches[b].ids == [to]
            && s.batches[b].from == from && s.batches[b].data == data
  {
    var n := |run| - 1;
    var s := Before(run, n);
    if k < n {
      assert run[..n][..k] == run[..k];
      StartedByForward(run[..n], c, k, from, to, data);
      BatchContinues(s, run[n], |Before(run, k).batches|);
    } else {
      ForwardStarts(s, c, from, to, data);
    }
  }

  /** The work that a step of `c` started with the next batch is over. */
  ghost predicate Dispatched(run: seq<Step>, c: ConnId, k: nat) {
    && After(run).Some? && k < |run| && c in After(run).value.conns
    && !Runs(After(run).value.conns[c].pc, |Before(run, k).batches|)
  }

  /** A client's message with a target is sent to that target, once, in the name the client gives: to the connection
      registered for it at the lookup, or nowhere. Nobody else is sent it. */
  lemma ForwardIsSent(run: seq<Step>, c: ConnId, k: nat, from: PeerID, to: PeerID, data: PeerEvent, p: PeerID)
    returns (l: nat, t: Tag)
    requires Dispatched(run, c, k) && run[k] == Receive(c, ForwardTo(from, to, data))
    ensures var s, b := After(run).value, |Before(run, k).batches|;
            && ToldOnce(s, b, to, t) && s.built[t].from == from && s.built[t].data == data
            && l < |run| && run[l] == Route(c, Lookup) && Decided(Before(run, l), s, t)
            && (p != to ==> forall u: Tag :: u < |s.built| && s.built[u].batch == b ==> s.built[u].to != p)
  {
    var b := |Before(run, k).batches|;
    StartedByForward(run, c, k, from, to, data);
    t := TargetIsSent(run, b, to);
    l := DecidedAtLookup(run, t);
    if p != to {
      OnlyTargetsAreSent(run, b, p);
    }
  }

  // ----- a request without a target -----

  /** A connection about to list the registry stays so until it does. */
  lemma WaitsToList(s: State, step: Step, c: ConnId)
    requires Enabled(s, step) && c in s.conns && s.conns[c].pc.Collecting? && !ListsBy(step, c)
    ensures c in Apply(s, step).conns && Apply(s, step).conns[c].pc == s.conns[c].pc
    ensures Apply(s, step).conns[c].id == s.conns[c].id
  {
    match step
    case Join(k, j) => assert k != c;
    case Route(k, r) => RouteWaits(s, k, r, c);
    case Receive(k, frame) => assert k != c;
    case Serve(k, v) => assert k != c;
    case End(k, e) => assert k != c;
    case Send(tag, d) => SendWaits(s, tag, d, c);
  }

  lemma RouteWaits(s: State, k: ConnId, step: RouteStep, c: ConnId)
    requires CanRoute(s, k, step) && c in s.conns && s.conns[c].pc.Collecting? && !ListsBy(Route(k, step), c)
    ensures c in DoRoute(s, k, step).conns && DoRoute(s, k, step).conns[c] == s.conns[c]
  {
  }

  lemma SendWaits(s: State, tag: Tag, step: SendStep, c: ConnId)
    requires CanSend(s, tag, step) && c in s.conns
    ensures c in DoSend(s, tag, step).conns && DoSend(s, tag, step).conns[c].pc == s.conns[c].pc
    ensures DoSend(s, tag, step).conns[c].id == s.conns[c].id
  {
  }

  /** Step `j` is the first listing of `c` after step `k`. */
  ghost predicate NextListing(run: seq<Step>, c: ConnId, k: nat, j: nat) {
    After(run).Some? && k < j < |run| && ListsBy(run[j], c) && forall i :: k < i < j ==> !ListsBy(run[i], c)
  }

  lemma {:induction false} ListsWhatWasAsked(run: seq<Step>, c: ConnId, k: nat, j: nat, from: PeerID, data: PeerEvent)
    requires After(run).Some? && k < j < |run| && (forall i :: k < i < j ==> !ListsBy(run[i], c))
    requires run[k] == Receive(c, ForwardToAll(from, data))
    ensures var s := Before(run, j);
            c in s.conns && s.conns[c].pc == Collecting(s.conns[c].id, data)
    decreases j
  {
    PrefixRuns(run, j);
    assert run[..j][..j - 1] == run[..j - 1];
    var s := Before(run, j - 1);
    if k == j - 1 {
      BroadcastStarts(s, c, from, data);
    } else {
      ListsWhatWasAsked(run, c, k, j - 1, from, data);
      WaitsToList(s, run[j - 1], c);
    }
  }

  /** A client's message without a target is sent to every peer registered when it is taken up, the client's own
      included, once each, in the connection's own name whatever name the client gives: to the connection registered
      for that peer at its lookup, or nowhere. Nobody else is sent it. */
  lemma BroadcastIsSent(run: seq<Step>, c: ConnId, k: nat, j: nat, from: PeerID, data: PeerEvent, p: PeerID)
    returns (l: nat, t: Tag)
    requires NextListing(run, c, k, j) && Dispatched(run, c, j)
    requires run[k] == Receive(c, ForwardToAll(from, data))
    ensures var s, b := After(run).value, |Before(run, j).batches|;
            && (p in Before(run, j).peers ==>
                  && ToldOnce(s, b, p, t) && s.built[t].from == s.conns[c].id && s.built[t].data == data
                  && l < |run| && run[l] == Route(c, Lookup) && Decided(Before(run, l), s, t))
            && (p !in Before(run, j).peers ==>
                  forall u: Tag :: u < |s.built| && s.built[u].batch == b ==> s.built[u].to != p)
  {
    var b := |Before(run, j).batches|;
    ListsWhatWasAsked(run, c, k, j, from, data);
    ListedBatch(run, c, j);
    IdStays(run, c, j);
    l, t := 0, 0;
    if p in Before(run, j).peers {
      t := TargetIsSent(run, b, p);
      l := DecidedAtLookup(run, t);
    } else {
      OnlyTargetsAreSent(run, b, p);
    }
  }

  // ----- the end of the read half -----

  lemma EndedStays(s: State, step: Step, c: ConnId)
    requires Enabled(s, step) && c in s.conns && (s.conns[c].ended || step == End(c, ReadEnds))
    ensures c in Apply(s, step).conns && Apply(s, step).conns[c].ended
  {
    match step
    case Join(k, j) => JoinKeepsEnded(s, k, j, c);
    case Route(k, r) => RouteKeepsEnded(s, k, r, c);
    case Receive(k, frame) =>
    case Serve(k, v) => ServeKeepsEnded(s, k, v, c);
    case End(k, e) =>
    case Send(tag, d) => SendKeepsEnded(s, tag, d, c);
  }

  lemma JoinKeepsEnded(s: State, k: ConnId, step: JoinStep, c: ConnId)
    requires CanJoin(s, k, step) && c in s.conns && s.conns[c].ended
    ensures c in DoJoin(s, k, step).conns && DoJoin(s, k, step).conns[c].ended
  {
  }

  lemma RouteKeepsEnded(s: State, k: ConnId, step: RouteStep, c: ConnId)
    requires CanRoute(s, k, step) && c in s.conns && s.conns[c].ended
    ensures c in DoRoute(s, k, step).conns && DoRoute(s, k, step).conns[c].ended
  {
  }

  lemma ServeKeepsEnded(s: State, k: ConnId, step: ServeStep, c: ConnId)
    requires CanServe(s, k, step) && c in s.conns && s.conns[c].ended
    ensures c in DoServe(s, k, step).conns && DoServe(s, k, step).conns[c].ended
  {
  }

  lemma SendKeepsEnded(s: State, tag: Tag, step: SendStep, c: ConnId)
    requires CanSend(s, tag, step) && c in s.conns && s.conns[c].ended
    ensures c in DoSend(s, tag, step).conns && DoSend(s, tag, step).conns[c].ended
  {
  }

  lemma {:induction false} EndedSince(run: seq<Step>, c: ConnId, k: nat, j: nat)
    requires After(run).Some? && k < j < |run| && run[k] == End(c, ReadEnds)
    ensures c in Before(run, j).conns && Before(run, j).conns[c].ended
    decreases j
  {
    PrefixRuns(run, j);
    assert run[..j][..j - 1] == run[..j - 1];
    if k < j - 1 {
      EndedSince(run, c, k, j - 1);
    }
    EndedStays(Before(run, j - 1), run[j - 1], c);
  }

  /** A connection whose read half has ended hears nothing more from its client, not even an error or another end. */
  lemma EndedHearsNothing(run: seq<Step>, c: ConnId, k: nat, j: nat)
    requires After(run).Some? && k < j < |run| && run[k] == End(c, ReadEnds)
    ensures !(run[j].Receive? && run[j].c == c) && run[j] != Serve(c, ReadError) && run[j] != End(c, ReadEnds)
  {
    EndedSince(run, c, k, j);
  }

  // ----- no connection is stuck -----

  lemma ListOf(keys: set<PeerID>) returns (ids: seq<PeerID>)
    ensures NoDuplicates(ids) && forall p :: p in ids <==> p in keys
  {
    if keys == {} {
      ids := [];
    } else {
      var p :| p in keys;
      ids := ListOf(keys - {p});
      assert forall i :: 0 <= i < |ids| ==> ids[i] in ids;
      ids := [p] + ids;
    }
  }

  /** The step is one of connection `c` itself. */
  predicate StepOf(step: Step, c: ConnId) { !step.Send? && step.c == c }

  lemma CanList(s: State, c: ConnId) returns (step: Step)
    requires c in s.conns && s.conns[c].pc.Collecting?
    ensures Enabled(s, step) && StepOf(step, c)
  {
    var ids := ListOf(s.peers.Keys);
    assert forall i :: 0 <= i < |ids| ==> ids[i] in ids;
    step := Route(c, Collect(ids));
  }

  lemma CanDispatch(s: State, c: ConnId) returns (step: Step)
    requires Inv(s) && c in s.conns && s.conns[c].pc.Dispatching?
    ensures Enabled(s, step) && StepOf(step, c)
  {
    var b := s.conns[c].pc.batch;
    assert InvAt(s, FixedSizePeerID(0, []), 0, c, b, 0);
    step := Route(c, if |s.batches[b].sent| < |s.batches[b].ids| then Lookup else Finish);
  }

  /** Everywhere but in its select loop, a connection that is neither rejected nor closed can always go on by itself,
      whatever the others do; in its select loop it can whenever a message is queued or its client can still speak. */
  lemma NobodyIsStuck(run: seq<Step>, c: ConnId) returns (step: Step)
    requires After(run).Some? && c in After(run).value.conns
    ensures var s := After(run).value;
            var conn := s.conns[c];
            conn.pc == Rejected || conn.pc == Closed || (conn.pc == Selecting && conn.queue == [] && conn.ended)
            || (Enabled(s, step) && StepOf(step, c))
  {
    RunKeepsInv(run);
    var s := After(run).value;
    assert InvAt(s, FixedSizePeerID(0, []), 0, c, 0, 0);
    match s.conns[c].pc {
      case Collecting(_, _) => step := CanList(s, c);
      case Dispatching(_) => step := CanDispatch(s, c);
      case Spawning(_, _, _) => step := Route(c, Spawn);
      case Selecting => step := if s.conns[c].queue != [] then Serve(c, Take) else Receive(c, Ping);
      case _ => step := CanGoOn(s, c);
    }
  }

  lemma CanGoOn(s: State, c: ConnId) returns (step: Step)
    requires c in s.conns
    ensures var pc := s.conns[c].pc;
            pc.Collecting? || pc.Dispatching? || pc.Spawning? || pc.Selecting? || pc == Rejected || pc == Closed
            || pc == Unwound || (Enabled(s, step) && StepOf(step, c))
  {
    step := match s.conns[c].pc
      case Inserting => Join(c, Insert)
      case Counting => Join(c, Count(s.conns[c].id))
      case Writing(_) => Serve(c, Write(true))
      case Removing => Serve(c, Remove)
      case Uncounting => Serve(c, Uncount)
      case Closing => Serve(c, DropReceiver)
      case _ => Join(c, Check);
  }
}
