/** Registration, the gauge and announcements over whole runs. */
module SignallingLifecycle {
  import opened Bytes
  import opened PeerIdentity
  import opened Signalling
  import opened SignallingInvariants
  import opened SignallingTheorems

  // ----- the gauge -----

  /** No connection is between its registry operation and its gauge operation. */
  ghost predicate AtRest(s: State) {
    forall c :: c in s.conns ==> s.conns[c].pc != Counting && s.conns[c].pc != Uncounting
  }

  /** In every reachable state the gauge is accounted for exactly; at rest it is the number of registered peers
      precisely when no insert ever overwrote a registration. */
  lemma GaugeIsExact(run: seq<Step>)
    requires After(run).Some?
    ensures var s := After(run).value;
            && GaugeOk(s)
            && (AtRest(s) ==> (s.gauge == |s.peers| <==> s.overwrites == 0))
  {
    RunKeepsInv(run);
    var s := After(run).value;
    if AtRest(s) {
      assert WithPc(s.conns, Counting) == {} && WithPc(s.conns, Uncounting) == {};
    }
  }

  /** Every key of the registry leads to a connection of that very identifier, which has not left its loop and can
      still be sent to. */
  lemma KeysNameTheirHandlers(run: seq<Step>, p: PeerID)
    requires After(run).Some? && p in After(run).value.peers
    ensures var s := After(run).value;
            var c := s.peers[p];
            c in s.conns && s.conns[c].id == p && Live(s.conns[c].pc) && s.conns[c].open
  {
    RunKeepsInv(run);
    var s := After(run).value;
    assert InvAt(s, p, 0, s.peers[p], 0, 0);
  }

  // ----- one connection per identifier -----

  predicate LiveAs(s: State, c: ConnId, p: PeerID) { c in s.conns && s.conns[c].id == p && Live(s.conns[c].pc) }

  predicate Registered(s: State, p: PeerID, c: ConnId) { p in s.peers && s.peers[p] == c }

  /** A live connection is the registered one. */
  predicate SoleAt(s: State, c: ConnId) {
    c in s.conns && Live(s.conns[c].pc) ==> Registered(s, s.conns[c].id, c)
  }

  ghost predicate Sole(s: State) { s.overwrites == 0 && forall c :: SoleAt(s, c) }

  lemma JoinKeepsSole(s: State, c: ConnId, step: JoinStep, k: ConnId)
    requires CanJoin(s, c, step) && SoleAt(s, k) && DoJoin(s, c, step).overwrites == s.overwrites
    ensures SoleAt(DoJoin(s, c, step), k)
  {
  }

  lemma RouteKeepsSole(s: State, c: ConnId, step: RouteStep, k: ConnId)
    requires CanRoute(s, c, step) && SoleAt(s, k)
    ensures SoleAt(DoRoute(s, c, step), k)
  {
  }

  lemma ServeKeepsSole(s: State, c: ConnId, step: ServeStep, k: ConnId)
    requires CanServe(s, c, step) && SoleAt(s, c) && SoleAt(s, k)
    ensures SoleAt(DoServe(s, c, step), k)
  {
  }

  lemma ReceiveKeepsSole(s: State, c: ConnId, action: Action, k: ConnId)
    requires At(s, c, Selecting) && SoleAt(s, k)
    ensures SoleAt(DoReceive(s, c, action), k)
  {
  }

  lemma EndKeepsSole(s: State, c: ConnId, step: EndStep, k: ConnId)
    requires CanEnd(s, c, step) && SoleAt(s, k)
    ensures SoleAt(DoEnd(s, c, step), k)
  {
  }

  lemma SendKeepsSole(s: State, tag: Tag, step: SendStep, k: ConnId)
    requires CanSend(s, tag, step) && SoleAt(s, k)
    ensures SoleAt(DoSend(s, tag, step), k)
  {
  }

  lemma StepKeepsSole(s: State, step: Step)
    requires Enabled(s, step) && Sole(s) && Apply(s, step).overwrites == 0
    ensures Sole(Apply(s, step))
  {
    forall k ensures SoleAt(Apply(s, step), k) {
      assert SoleAt(s, k);
      match step
      case Join(c, j) => JoinKeepsSole(s, c, j, k);
      case Route(c, r) => RouteKeepsSole(s, c, r, k);
      case Receive(c, frame) => ReceiveKeepsSole(s, c, Interpret(frame), k);
      case Serve(c, v) =>
        assert SoleAt(s, c);
        ServeKeepsSole(s, c, v, k);
      case End(c, e) => EndKeepsSole(s, c, e, k);
      case Send(tag, d) => SendKeepsSole(s, tag, d, k);
    }
  }

  /** The insert that finds its identifier taken is what overwrites. */
  lemma OnlyInsertOverwrites(s: State, step: Step)
    requires Enabled(s, step)
    ensures var overwrites := step.Join? && step.join == Insert && s.conns[step.c].id in s.peers;
            Apply(s, step).overwrites == s.overwrites + if overwrites then 1 else 0
  {
    match step
    case Join(c, j) => assert j != Insert ==> DoJoin(s, c, j).overwrites == s.overwrites;
    case Route(c, r) => assert DoRoute(s, c, r).overwrites == s.overwrites;
    case Receive(c, frame) => assert DoReceive(s, c, Interpret(frame)).overwrites == s.overwrites;
    case Serve(c, v) => assert DoServe(s, c, v).overwrites == s.overwrites;
    case End(c, e) => assert DoEnd(s, c, e).overwrites == s.overwrites;
    case Send(tag, d) => assert DoSend(s, tag, d).overwrites == s.overwrites;
  }

  lemma {:induction false} RunKeepsSole(run: seq<Step>)
    requires After(run).Some? && After(run).value.overwrites == 0
    ensures Sole(After(run).value)
  {
    if run != [] {
      var s := After(run[..|run| - 1]).value;
      OnlyInsertOverwrites(s, run[|run| - 1]);
      RunKeepsSole(run[..|run| - 1]);
      StepKeepsSole(s, run[|run| - 1]);
    }
  }

  lemma {:induction false} OverwritesGrow(run: seq<Step>, k: nat)
    requires After(run).Some? && k <= |run|
    ensures After(run[..k]).Some? && After(run[..k]).value.overwrites <= After(run).value.overwrites
    decreases |run| - k
  {
    if k == |run| {
      assert run[..k] == run;
    } else {
      OverwritesGrow(run, k + 1);
      assert run[..k + 1][..k] == run[..k];
      OnlyInsertOverwrites(After(run[..k]).value, run[k]);
    }
  }

  ghost predicate OneLive(s: State) { forall c, d, p :: LiveAs(s, c, p) && LiveAs(s, d, p) ==> c == d }

  ghost predicate OneLiveAt(run: seq<Step>, k: nat) {
    k <= |run| && After(run[..k]).Some? ==> OneLive(After(run[..k]).value)
  }

  lemma OverwriteLeavesTwo(s: State, c: ConnId)
    requires Inv(s) && CanJoin(s, c, Insert) && s.conns[c].id in s.peers
    ensures !OneLive(DoJoin(s, c, Insert))
  {
    var p := s.conns[c].id;
    var d := s.peers[p];
    assert InvAt(s, p, 0, d, 0, 0);
    var s' := DoJoin(s, c, Insert);
    assert LiveAs(s', c, p) && LiveAs(s', d, p) && c != d;
  }

  lemma {:induction false} OverwrittenHadTwo(run: seq<Step>) returns (k: nat)
    requires After(run).Some? && After(run).value.overwrites > 0
    ensures !OneLiveAt(run, k)
  {
    var n := |run| - 1;
    var s := Before(run, n);
    if s.overwrites > 0 {
      k := OverwrittenHadTwo(run[..n]);
      assert run[..n][..k] == run[..k];
    } else {
      OnlyInsertOverwrites(s, run[n]);
      RunKeepsInv(run[..n]);
      OverwriteLeavesTwo(s, run[n].c);
      k := |run|;
      assert run[..k] == run;
    }
  }

  /** There was at no moment more than one live connection of an identifier exactly if no insert found its identifier
      taken. The registry is then exactly the live connections, and the gauge at rest counts them. */
  lemma OneConnectionPerPeer(run: seq<Step>)
    requires After(run).Some?
    ensures var s := After(run).value;
            && ((forall k: nat :: OneLiveAt(run, k)) <==> s.overwrites == 0)
            && (s.overwrites == 0 ==> forall p, c :: Registered(s, p, c) <==> LiveAs(s, c, p))
            && (s.overwrites == 0 && AtRest(s) ==> s.gauge == |s.peers|)
  {
    var s := After(run).value;
    if s.overwrites == 0 {
      GaugeIsExact(run);
      RunKeepsSole(run);
      RunKeepsInv(run);
      forall p, c ensures Registered(s, p, c) <==> LiveAs(s, c, p) {
        assert InvAt(s, p, 0, c, 0, 0) && SoleAt(s, c);
      }
      forall k: nat ensures OneLiveAt(run, k) {
        if k <= |run| {
          OverwritesGrow(run, k);
          RunKeepsSole(run[..k]);
          SoleMeansOneLive(After(run[..k]).value);
        }
      }
    } else {
      var k := OverwrittenHadTwo(run);
    }
  }

  lemma SoleMeansOneLive(s: State)
    requires Sole(s)
    ensures OneLive(s)
  {
    forall c, d, p | LiveAs(s, c, p) && LiveAs(s, d, p) ensures c == d {
      assert SoleAt(s, c) && SoleAt(s, d);
    }
  }

  // ----- checks and inserts that do not overlap -----

  /** No two connections of one identifier are between the check and the insert: what making the two one step
      would give. */
  ghost predicate NoOverlap(s: State) {
    forall c, d :: IsAt(s.conns, c, Inserting) && IsAt(s.conns, d, Inserting) && s.conns[c].id == s.conns[d].id ==>
      c == d
  }

  ghost predicate FreeAt(run: seq<Step>, k: nat) {
    k <= |run| && After(run[..k]).Some? ==> NoOverlap(After(run[..k]).value)
  }

  ghost predicate NeverOverlaps(run: seq<Step>) { forall k: nat :: FreeAt(run, k) }

  /** A connection about to insert finds its identifier free. */
  predicate Unclaimed(s: State, c: ConnId) { IsAt(s.conns, c, Inserting) ==> s.conns[c].id !in s.peers }

  lemma JoinKeepsUnclaimed(s: State, c: ConnId, step: JoinStep, k: ConnId)
    requires CanJoin(s, c, step) && Unclaimed(s, k) && NoOverlap(s)
    ensures Unclaimed(DoJoin(s, c, step), k)
  {
  }

  lemma RouteKeepsUnclaimed(s: State, c: ConnId, step: RouteStep, k: ConnId)
    requires CanRoute(s, c, step) && Unclaimed(s, k)
    ensures Unclaimed(DoRoute(s, c, step), k)
  {
  }

  lemma ServeKeepsUnclaimed(s: State, c: ConnId, step: ServeStep, k: ConnId)
    requires CanServe(s, c, step) && Unclaimed(s, k)
    ensures Unclaimed(DoServe(s, c, step), k)
  {
  }

  lemma StepKeepsUnclaimed(s: State, step: Step, k: ConnId)
    requires Enabled(s, step) && NoOverlap(s) && Unclaimed(s, k)
    ensures Unclaimed(Apply(s, step), k)
  {
    match step
    case Join(c, j) => JoinKeepsUnclaimed(s, c, j, k);
    case Route(c, r) => RouteKeepsUnclaimed(s, c, r, k);
    case Receive(c, frame) => assert Unclaimed(DoReceive(s, c, Interpret(frame)), k);
    case Serve(c, v) => ServeKeepsUnclaimed(s, c, v, k);
    case End(c, e) => assert Unclaimed(DoEnd(s, c, e), k);
    case Send(tag, d) => assert Unclaimed(DoSend(s, tag, d), k);
  }

  lemma PrefixNeverOverlaps(run: seq<Step>)
    requires run != [] && NeverOverlaps(run)
    ensures NeverOverlaps(run[..|run| - 1])
  {
    var prefix := run[..|run| - 1];
    forall k: nat ensures FreeAt(prefix, k) {
      assert FreeAt(run, k);
      assert k < |run| ==> prefix[..k] == run[..k];
    }
  }

  /** When checks and inserts of one identifier never overlap, no insert finds its identifier taken; so there is never
      more than one live connection of it. */
  lemma {:induction false} NoOverlapNoOverwrite(run: seq<Step>)
    requires After(run).Some? && NeverOverlaps(run)
    ensures After(run).value.overwrites == 0 && forall c :: Unclaimed(After(run).value, c)
  {
    if run != [] {
      var s := After(run[..|run| - 1]).value;
      PrefixNeverOverlaps(run);
      NoOverlapNoOverwrite(run[..|run| - 1]);
      assert FreeAt(run, |run| - 1);
      OnlyInsertOverwrites(s, run[|run| - 1]);
      assert run[|run| - 1].Join? ==> Unclaimed(s, run[|run| - 1].c);
      forall c ensures Unclaimed(After(run).value, c) {
        assert Unclaimed(s, c);
        StepKeepsUnclaimed(s, run[|run| - 1], c);
      }
    }
  }

  // ----- rejection -----

  /** Step `k` is the check by which connection `c` found its identifier taken. */
  ghost predicate RejectedAt(run: seq<Step>, c: ConnId, k: nat) {
    && After(run).Some? && k < |run| && run[k] == Join(c, Check)
    && c in Before(run, k).conns && Before(run, k).conns[c].id in Before(run, k).peers
  }

  /** A rejected connection stays as it is, and none is newly rejected. */
  ghost predicate RejectsNobody(s: State, s': State, c: ConnId) {
    && (At(s, c, Rejected) ==> c in s'.conns && s'.conns[c] == s.conns[c])
    && (At(s', c, Rejected) ==> At(s, c, Rejected))
  }

  lemma JoinRejects(s: State, k: ConnId, step: JoinStep, c: ConnId)
    requires CanJoin(s, k, step)
    ensures RejectsNobody(s, DoJoin(s, k, step), c) || (k == c && step == Check && s.conns[c].id in s.peers)
    ensures At(s, c, Rejected) ==> RejectsNobody(s, DoJoin(s, k, step), c)
  {
  }

  lemma RouteRejects(s: State, k: ConnId, step: RouteStep, c: ConnId)
    requires CanRoute(s, k, step)
    ensures RejectsNobody(s, DoRoute(s, k, step), c)
  {
  }

  lemma ReceiveRejects(s: State, k: ConnId, action: Action, c: ConnId)
    requires At(s, k, Selecting)
    ensures RejectsNobody(s, DoReceive(s, k, action), c)
  {
  }

  lemma ServeRejects(s: State, k: ConnId, step: ServeStep, c: ConnId)
    requires CanServe(s, k, step)
    ensures RejectsNobody(s, DoServe(s, k, step), c)
  {
  }

  lemma EndRejects(s: State, k: ConnId, step: EndStep, c: ConnId)
    requires CanEnd(s, k, step)
    ensures RejectsNobody(s, DoEnd(s, k, step), c)
  {
  }

  lemma SendRejects(s: State, tag: Tag, step: SendStep, c: ConnId)
    requires CanSend(s, tag, step) && TaskAt(s, tag)
    ensures RejectsNobody(s, DoSend(s, tag, step), c)
  {
  }

  lemma OnlyCheckRejects(s: State, step: Step, c: ConnId)
    requires Inv(s) && Enabled(s, step)
    ensures RejectsNobody(s, Apply(s, step), c) || (step == Join(c, Check) && s.conns[c].id in s.peers)
    ensures At(s, c, Rejected) ==> RejectsNobody(s, Apply(s, step), c)
  {
    match step
    case Join(k, j) => JoinRejects(s, k, j, c);
    case Route(k, r) => RouteRejects(s, k, r, c);
    case Receive(k, frame) => ReceiveRejects(s, k, Interpret(frame), c);
    case Serve(k, v) => ServeRejects(s, k, v, c);
    case End(k, e) => EndRejects(s, k, e, c);
    case Send(tag, d) =>
      assert InvAt(s, FixedSizePeerID(0, []), tag, c, 0, 0);
      SendRejects(s, tag, d, c);
  }

  lemma {:induction false} RejectedByCheck(run: seq<Step>, c: ConnId) returns (k: nat)
    requires After(run).Some? && At(After(run).value, c, Rejected)
    ensures RejectedAt(run, c, k)
  {
    var n := |run| - 1;
    var s := Before(run, n);
    if At(s, c, Rejected) {
      k := RejectedByCheck(run[..n], c);
      assert run[..n][..k] == run[..k];
    } else {
      RunKeepsInv(run[..n]);
      OnlyCheckRejects(s, run[n], c);
      k := n;
    }
  }

  lemma {:induction false} RejectedForGood(run: seq<Step>, c: ConnId, k: nat)
    requires RejectedAt(run, c, k)
    ensures At(After(run).value, c, Rejected)
  {
    var n := |run| - 1;
    if k < n {
      assert run[..n][..k] == run[..k];
      RejectedForGood(run[..n], c, k);
      RunKeepsInv(run[..n]);
      OnlyCheckRejects(Before(run, n), run[n], c);
    }
  }

  /** Not what any identifier leads to, owner of no broadcast or forward, target of no send. */
  ghost predicate TakesNoPart(s: State, c: ConnId) {
    && (forall p :: !Registered(s, p, c))
    && (forall b :: 0 <= b < |s.batches| ==> s.batches[b].owner != c)
    && (forall t :: t in s.tasks ==> s.tasks[t].dest != c)
  }

  lemma RejectedTakesNoPart(s: State, c: ConnId)
    requires Inv(s) && At(s, c, Rejected)
    ensures TakesNoPart(s, c) && s.conns[c].accepted == [] && !s.conns[c].open
  {
    var p0 := FixedSizePeerID(0, []);
    assert InvAt(s, p0, 0, c, 0, 0);
    forall p ensures !Registered(s, p, c) {
      assert InvAt(s, p, 0, c, 0, 0);
    }
    forall b | 0 <= b < |s.batches| ensures s.batches[b].owner != c {
      assert InvAt(s, p0, 0, c, b, 0);
    }
    forall t | t in s.tasks ensures s.tasks[t].dest != c {
      assert InvAt(s, p0, t, c, 0, 0);
    }
  }

  /** A connection is rejected, once and for good, exactly if its check found its identifier taken. It then takes no
      part in anything and has accepted nothing. */
  lemma RejectionChangesNothing(run: seq<Step>, c: ConnId)
    requires After(run).Some? && c in After(run).value.conns
    ensures var s := After(run).value;
            && (s.conns[c].pc == Rejected <==> exists k: nat :: RejectedAt(run, c, k))
            && (s.conns[c].pc == Rejected ==> TakesNoPart(s, c) && s.conns[c].accepted == [] && !s.conns[c].open)
  {
    if After(run).value.conns[c].pc == Rejected {
      var k := RejectedByCheck(run, c);
      RunKeepsInv(run);
      RejectedTakesNoPart(After(run).value, c);
    }
    forall k: nat | RejectedAt(run, c, k) ensures After(run).value.conns[c].pc == Rejected {
      RejectedForGood(run, c, k);
    }
  }

  /** The check that rejects leaves registry, gauge, messages and every other connection as they were. */
  lemma RejectingKeepsTheRest(run: seq<Step>, c: ConnId, k: nat)
    requires RejectedAt(run, c, k)
    ensures After(run[..k + 1]).Some?
    ensures var before, after := Before(run, k), After(run[..k + 1]).value;
            after == before.(conns := after.conns) && after.conns - {c} == before.conns - {c}
  {
    PrefixRuns(run, k + 1);
    assert run[..k + 1][..k] == run[..k];
  }

  // ----- the end of a connection -----

  /** As long as its loop runs, a connection's channel has a sender: the loop's own handler. So the outbound branch of
      the `select!` never finds the channel ended, and the `select!` never has both its branches disabled. */
  lemma ChannelOutlivesLoop(run: seq<Step>, c: ConnId)
    requires After(run).Some? && c in After(run).value.conns
    ensures var s := After(run).value;
            && (s.conns[c].pc != Rejected && s.conns[c].pc != Closed ==>
                  HoldsSender(s, c, OwnLoop) && !ChannelEnded(s, c))
            && !CanEnd(s, c, OutboundNone)
            && s.conns[c].pc != Unwound
  {
    RunKeepsInv(run);
    var s := After(run).value;
    assert InvAt(s, FixedSizePeerID(0, []), 0, c, 0, 0);
    assert s.conns[c].handler ==> HoldsSender(s, c, OwnLoop);
  }

  /** How a live connection comes to an end. */
  ghost predicate EndsProperly(s: State, s': State, step: Step, c: ConnId)
    requires c in s.conns
  {
    && c in s'.conns
    && (s'.conns[c].pc == Removing && s.conns[c].pc != Removing <==>
          step == Serve(c, Write(false)) || step == Serve(c, ReadError) || step == Receive(c, Close))
    && (!Live(s'.conns[c].pc) <==> step == Serve(c, Remove))
    && (step == Serve(c, Remove) ==> s.conns[c].id !in s'.peers)
  }

  /** The loop of a connection ends on a failed write, a Close frame or a read error, and on nothing else, not even
      when its read half or its channel has nothing more; ending frees its identifier; and a live connection's receiver is there to be sent
      to. */
  lemma LoopEnds(s: State, step: Step, c: ConnId)
    requires Inv(s) && Enabled(s, step) && c in s.conns && Live(s.conns[c].pc)
    ensures EndsProperly(s, Apply(s, step), step, c)
    ensures s.conns[c].open
  {
    assert InvAt(s, FixedSizePeerID(0, []), 0, c, 0, 0);
    match step
    case Join(k, j) => JoinEnds(s, k, j, c);
    case Route(k, r) => RouteEnds(s, k, r, c);
    case Receive(k, frame) => ReceiveEnds(s, k, frame, c);
    case Serve(k, v) => ServeEnds(s, k, v, c);
    case End(k, e) => OwnHandlerHolds(s, k);
    case Send(tag, d) => SendEnds(s, tag, d, c);
  }

  lemma JoinEnds(s: State, k: ConnId, step: JoinStep, c: ConnId)
    requires CanJoin(s, k, step) && c in s.conns && Live(s.conns[c].pc)
    ensures EndsProperly(s, DoJoin(s, k, step), Join(k, step), c)
  {
  }

  lemma RouteEnds(s: State, k: ConnId, step: RouteStep, c: ConnId)
    requires CanRoute(s, k, step) && c in s.conns && Live(s.conns[c].pc)
    ensures EndsProperly(s, DoRoute(s, k, step), Route(k, step), c)
  {
  }

  lemma ReceiveEnds(s: State, k: ConnId, frame: Frame, c: ConnId)
    requires At(s, k, Selecting) && c in s.conns && Live(s.conns[c].pc)
    ensures EndsProperly(s, DoReceive(s, k, Interpret(frame)), Receive(k, frame), c)
  {
  }

  lemma ServeEnds(s: State, k: ConnId, step: ServeStep, c: ConnId)
    requires CanServe(s, k, step) && c in s.conns && Live(s.conns[c].pc)
    ensures EndsProperly(s, DoServe(s, k, step), Serve(k, step), c)
  {
  }

  lemma SendEnds(s: State, tag: Tag, step: SendStep, c: ConnId)
    requires CanSend(s, tag, step) && c in s.conns && Live(s.conns[c].pc)
    ensures EndsProperly(s, DoSend(s, tag, step), Send(tag, step), c)
  {
  }

  // ----- a run with an overlap -----

  lemma Extend(run: seq<Step>, s: State, step: Step)
    requires After(run) == Some(s) && Enabled(s, step)
    ensures After(run + [step]) == Some(Apply(s, step))
  {
    assert (run + [step])[..|run + [step]| - 1] == run;
  }

  /** Connections 0 and 1, both of identifier `p`, at the same place in the code. */
  ghost predicate Both(s: State, p: PeerID, pc: Pc, peers: map<PeerID, ConnId>, gauge: int) {
    && s.conns.Keys == {0, 1} && s.conns[0].id == s.conns[1].id == p && s.conns[0].pc == s.conns[1].pc == pc
    && s.peers == peers && s.gauge == gauge
  }

  /** Both take the same step, one after the other. */
  lemma BothStep(run: seq<Step>, step: JoinStep, p: PeerID, pc: Pc, peers: map<PeerID, ConnId>, gauge: int)
    returns (run': seq<Step>)
    requires After(run).Some? && CanJoin(After(run).value, 0, step)
    requires CanJoin(DoJoin(After(run).value, 0, step), 1, step)
    requires Both(DoJoin(DoJoin(After(run).value, 0, step), 1, step), p, pc, peers, gauge)
    ensures After(run').Some? && Both(After(run').value, p, pc, peers, gauge)
  {
    var s := After(run).value;
    Extend(run, s, Join(0, step));
    Extend(run + [Join(0, step)], DoJoin(s, 0, step), Join(1, step));
    run' := run + [Join(0, step)] + [Join(1, step)];
  }

  lemma BothConnect(p: PeerID) returns (run: seq<Step>)
    ensures After(run).Some? && Both(After(run).value, p, Checking, map[], 0)
  {
    run := BothStep([], Connect(p), p, Checking, map[], 0);
  }

  lemma BothCheck(run: seq<Step>, p: PeerID) returns (run': seq<Step>)
    requires After(run).Some? && Both(After(run).value, p, Checking, map[], 0)
    ensures After(run').Some? && Both(After(run').value, p, Inserting, map[], 0)
  {
    run' := BothStep(run, Check, p, Inserting, map[], 0);
  }

  lemma BothInsert(run: seq<Step>, p: PeerID) returns (run': seq<Step>)
    requires After(run).Some? && Both(After(run).value, p, Inserting, map[], 0)
    ensures After(run').Some? && Both(After(run').value, p, Counting, map[p := 1], 0)
  {
    run' := BothStep(run, Insert, p, Counting, map[p := 1], 0);
  }

  /** Nothing is in progress on the gauge, which reads two, with one peer registered. */
  ghost predicate Miscounted(s: State) { AtRest(s) && s.gauge == 2 && |s.peers| == 1 }

  lemma BothCount(run: seq<Step>, p: PeerID) returns (run': seq<Step>)
    requires After(run).Some? && Both(After(run).value, p, Counting, map[p := 1], 0)
    ensures After(run').Some? && Miscounted(After(run').value)
  {
    run' := BothStep(run, Count(p), p, Collecting(p, NewPeer(p)), map[p := 1], 2);
  }

  /** Checking and inserting are separate operations, so two connections of one identifier can both be accepted:
      then the gauge counts two where one peer is registered. */
  lemma OverlapMiscounts(p: PeerID) returns (run: seq<Step>)
    ensures After(run).Some? && Miscounted(After(run).value)
  {
    run := BothConnect(p);
    run := BothCheck(run, p);
    run := BothInsert(run, p);
    run := BothCount(run, p);
  }
}
