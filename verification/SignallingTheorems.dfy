/** What holds after every run of the signalling machine. */
module SignallingTheorems {
  import opened Bytes
  import opened PeerIdentity
  import opened Signalling
  import opened SignallingInvariants

  // ----- conservation -----

  datatype Spot = Written | Lost | InHand | Queued | Discarded

  /** Where a Forward can be: dropped because its target was not found, held by the connection dispatching it,
      waiting in its task, refused because the receiver is gone, or at one index of one part of one channel. */
  datatype Place =
    | NotFound
    | Held(c: ConnId)
    | Waiting(dest: ConnId)
    | Refused(dest: ConnId)
    | Channel(c: ConnId, spot: Spot, index: nat)

  function Part(conn: Conn, spot: Spot): seq<Tag> {
    match spot
    case Written => conn.written
    case Lost => conn.lost
    case InHand => SignallingInvariants.InHand(conn)
    case Queued => conn.queue
    case Discarded => conn.discarded
  }

  function Offset(conn: Conn, spot: Spot): nat {
    match spot
    case Written => 0
    case Lost => |conn.written|
    case InHand => |conn.written| + |conn.lost|
    case Queued => |conn.written| + |conn.lost| + |SignallingInvariants.InHand(conn)|
    case Discarded => |conn.written| + |conn.lost| + |SignallingInvariants.InHand(conn)| + |conn.queue|
  }

  predicate IsIn(s: State, t: Tag, place: Place) {
    match place
    case NotFound => t in s.notFound
    case Held(c) => Holds(s, c, t)
    case Waiting(dest) => t in s.tasks && s.tasks[t] == Task(dest, Sending)
    case Refused(dest) => t in s.tasks && s.tasks[t] == Task(dest, Failed)
    case Channel(c, spot, i) =>
      c in s.conns && i < |Part(s.conns[c], spot)| && Part(s.conns[c], spot)[i] == t
  }

  /** The parts of a channel lie one after the other in its history. */
  lemma PartLiesInHistory(conn: Conn, spot: Spot, i: nat)
    requires ConnOk(conn) && i < |Part(conn, spot)|
    ensures Offset(conn, spot) + i < |conn.accepted|
    ensures conn.accepted[Offset(conn, spot) + i] == Part(conn, spot)[i]
  {
  }

  lemma FindPart(conn: Conn, t: Tag) returns (spot: Spot, i: nat)
    requires ConnOk(conn) && t in conn.accepted
    ensures i < |Part(conn, spot)| && Part(conn, spot)[i] == t
  {
    var k :| 0 <= k < |conn.accepted| && conn.accepted[k] == t;
    spot := if k < Offset(conn, Lost) then Written
            else if k < Offset(conn, InHand) then Lost
            else if k < Offset(conn, Queued) then InHand
            else if k < Offset(conn, Discarded) then Queued
            else Discarded;
    i := k - Offset(conn, spot);
    assert i < |Part(conn, spot)|;
    PartLiesInHistory(conn, spot, i);
  }

  lemma FindPlace(s: State, t: Tag) returns (place: Place)
    requires Inv(s) && t < |s.built|
    ensures IsIn(s, t, place)
  {
    var p0 := FixedSizePeerID(0, []);
    assert InvAt(s, p0, t, 0, 0, 0);
    if t in s.notFound {
      place := NotFound;
    } else if t !in s.tasks {
      place := Held(Builder(s, t));
    } else {
      var dest := s.tasks[t].dest;
      assert InvAt(s, p0, t, dest, 0, 0);
      match s.tasks[t].pc {
        case Sending => place := Waiting(dest);
        case Failed => place := Refused(dest);
        case _ =>
          var spot, i := FindPart(s.conns[dest], t);
          place := Channel(dest, spot, i);
      }
    }
  }

  /** What being in a place says of the registers that all places share. */
  ghost predicate Marks(s: State, t: Tag, place: Place) {
    && t < |s.built|
    && match place
       case NotFound => t in s.notFound && t !in s.tasks
       case Held(c) => t !in s.notFound && t !in s.tasks && s.built[t].batch < |s.batches| && c == Builder(s, t)
       case Waiting(dest) => t !in s.notFound && t in s.tasks && s.tasks[t] == Task(dest, Sending)
       case Refused(dest) => t !in s.notFound && t in s.tasks && s.tasks[t] == Task(dest, Failed)
       case Channel(c, _, _) =>
         t !in s.notFound && t in s.tasks && s.tasks[t].dest == c && InChannel(s.tasks[t].pc)
  }

  lemma PlaceMarks(s: State, t: Tag, place: Place)
    requires Inv(s) && IsIn(s, t, place)
    ensures Marks(s, t, place)
  {
    var c := if place.Held? || place.Channel? then place.c else 0;
    assert InvAt(s, FixedSizePeerID(0, []), t, c, 0, 0);
    if place.Channel? {
      PartLiesInHistory(s.conns[c], place.spot, place.index);
    }
  }

  lemma OneSpot(conn: Conn, t: Tag, a: Spot, i: nat, b: Spot, j: nat)
    requires ConnOk(conn) && i < |Part(conn, a)| && j < |Part(conn, b)| && Part(conn, a)[i] == t == Part(conn, b)[j]
    ensures a == b && i == j
  {
    PartLiesInHistory(conn, a, i);
    PartLiesInHistory(conn, b, j);
    assert Offset(conn, a) + i == Offset(conn, b) + j;
  }

  lemma OnePlace(s: State, t: Tag, a: Place, b: Place)
    requires Inv(s) && IsIn(s, t, a) && IsIn(s, t, b)
    ensures a == b && t < |s.built|
  {
    PlaceMarks(s, t, a);
    PlaceMarks(s, t, b);
    if a.Channel? && b.Channel? {
      assert InvAt(s, FixedSizePeerID(0, []), t, a.c, 0, 0);
      OneSpot(s.conns[a.c], t, a.spot, a.index, b.spot, b.index);
    }
  }

  /** No send newly fails, and a receiver that is gone stays gone. */
  ghost predicate FailsNone(s: State, s': State, t: Tag, c: ConnId) {
    && (t in s'.tasks && s'.tasks[t].pc == Failed ==> t in s.tasks && s.tasks[t] == s'.tasks[t])
    && (c in s.conns && !s.conns[c].open ==> c in s'.conns && !s'.conns[c].open)
  }

  lemma JoinFailsNone(s: State, k: ConnId, step: JoinStep, t: Tag, c: ConnId)
    requires CanJoin(s, k, step)
    ensures FailsNone(s, DoJoin(s, k, step), t, c)
  {
  }

  lemma RouteFailsNone(s: State, k: ConnId, step: RouteStep, t: Tag, c: ConnId)
    requires CanRoute(s, k, step)
    ensures FailsNone(s, DoRoute(s, k, step), t, c)
  {
  }

  lemma ReceiveFailsNone(s: State, k: ConnId, action: Action, t: Tag, c: ConnId)
    requires At(s, k, Selecting)
    ensures FailsNone(s, DoReceive(s, k, action), t, c)
  {
  }

  lemma ServeFailsNone(s: State, k: ConnId, step: ServeStep, t: Tag, c: ConnId)
    requires CanServe(s, k, step)
    ensures FailsNone(s, DoServe(s, k, step), t, c)
  {
  }

  lemma EndFailsNone(s: State, k: ConnId, step: EndStep, t: Tag, c: ConnId)
    requires CanEnd(s, k, step)
    ensures FailsNone(s, DoEnd(s, k, step), t, c)
  {
  }

  /** The receiver of a failed send is gone. */
  predicate FailedAt(s: State, t: Tag) {
    t in s.tasks && s.tasks[t].pc == Failed ==> s.tasks[t].dest in s.conns && !s.conns[s.tasks[t].dest].open
  }

  lemma SendFailsToGone(s: State, tag: Tag, step: SendStep, t: Tag)
    requires CanSend(s, tag, step) && FailedAt(s, t)
    ensures FailedAt(DoSend(s, tag, step), t)
  {
  }

  lemma StepKeepsFailed(s: State, step: Step, t: Tag)
    requires Enabled(s, step) && FailedAt(s, t)
    ensures FailedAt(Apply(s, step), t)
  {
    var c := if t in s.tasks then s.tasks[t].dest else 0;
    match step
    case Join(k, j) => JoinFailsNone(s, k, j, t, c);
    case Route(k, r) => RouteFailsNone(s, k, r, t, c);
    case Receive(k, frame) => ReceiveFailsNone(s, k, Interpret(frame), t, c);
    case Serve(k, v) => ServeFailsNone(s, k, v, t, c);
    case End(k, e) => EndFailsNone(s, k, e, t, c);
    case Send(tag, d) => SendFailsToGone(s, tag, d, t);
  }

  lemma {:induction false} RefusedIsGone(run: seq<Step>, t: Tag)
    requires After(run).Some?
    ensures FailedAt(After(run).value, t)
  {
    if run != [] {
      RefusedIsGone(run[..|run| - 1], t);
      StepKeepsFailed(After(run[..|run| - 1]).value, run[|run| - 1], t);
    }
  }

  /** Conservation: after every run, each Forward built is in exactly one place, and nothing else is anywhere; and one
      that was refused was refused by a connection whose receiver is gone. */
  lemma Conservation(run: seq<Step>, t: Tag)
    requires After(run).Some?
    ensures var s := After(run).value;
            && (t < |s.built| <==> exists place :: IsIn(s, t, place))
            && (forall a, b :: IsIn(s, t, a) && IsIn(s, t, b) ==> a == b)
            && forall c :: IsIn(s, t, Refused(c)) ==> c in s.conns && !s.conns[c].open
  {
    RunKeepsInv(run);
    RefusedIsGone(run, t);
    var s := After(run).value;
    forall a, b | IsIn(s, t, a) && IsIn(s, t, b) ensures a == b && t < |s.built| {
      OnePlace(s, t, a, b);
    }
    if t < |s.built| {
      var place := FindPlace(s, t);
    }
  }

  /** A send not finished stays as it is, or is accepted. */
  ghost predicate WaitsOrArrives(s: State, s': State, t: Tag, c: ConnId) {
    t in s'.tasks && (s'.tasks[t] == Task(c, Sending)
                      || (s'.tasks[t] == Task(c, Sent) && c in s'.conns && t in s'.conns[c].accepted))
  }

  lemma RouteLeavesSends(s: State, k: ConnId, step: RouteStep, t: Tag)
    requires CanRoute(s, k, step) && HeldAt(s, k) && t in s.tasks
    ensures t in DoRoute(s, k, step).tasks && DoRoute(s, k, step).tasks[t] == s.tasks[t]
  {
  }

  lemma SendOrWait(s: State, tag: Tag, step: SendStep, t: Tag, c: ConnId)
    requires CanSend(s, tag, step) && t in s.tasks && s.tasks[t] == Task(c, Sending) && c in s.conns && s.conns[c].open
    ensures WaitsOrArrives(s, DoSend(s, tag, step), t, c)
  {
    if tag == t && step == Enqueue {
      assert s.conns[c].Push(t).accepted[|s.conns[c].accepted|] == t;
    }
  }

  lemma OthersLeaveSends(s: State, step: Step)
    requires Enabled(s, step) && !step.Route? && !step.Send?
    ensures Apply(s, step).tasks == s.tasks
  {
    match step
    case Join(k, j) => assert DoJoin(s, k, j).tasks == s.tasks;
    case Receive(k, frame) => assert DoReceive(s, k, Interpret(frame)).tasks == s.tasks;
    case Serve(k, v) => assert DoServe(s, k, v).tasks == s.tasks;
    case End(k, e) => assert DoEnd(s, k, e).tasks == s.tasks;
  }

  /** A send to a connection whose receiver is there waits for room, however full the channel, and goes in when there
      is some; it fails exactly when the receiver is gone. No step loses it. */
  lemma SendWaitsForRoom(run: seq<Step>, step: Step, t: Tag)
    requires After(run).Some? && Enabled(After(run).value, step)
    requires var s := After(run).value; t in s.tasks && s.tasks[t].pc == Sending
    ensures var s := After(run).value;
            var c := s.tasks[t].dest;
            && c in s.conns
            && (s.conns[c].open ==> WaitsOrArrives(s, Apply(s, step), t, c))
            && (Enabled(s, Send(t, Enqueue)) <==> s.conns[c].open && |s.conns[c].queue| < 32)
            && (Enabled(s, Send(t, FailSend)) <==> !s.conns[c].open)
  {
    RunKeepsInv(run);
    var s := After(run).value;
    TargetIsThere(s, t);
    if s.conns[s.tasks[t].dest].open {
      NoStepLosesSend(s, step, t);
    }
  }

  lemma TargetIsThere(s: State, t: Tag)
    requires Inv(s) && t in s.tasks
    ensures t < |s.built| && s.tasks[t].dest in s.conns
  {
    assert InvAt(s, FixedSizePeerID(0, []), t, 0, 0, 0);
  }

  lemma NoStepLosesSend(s: State, step: Step, t: Tag)
    requires Inv(s) && Enabled(s, step) && t in s.tasks && s.tasks[t].pc == Sending
    requires s.tasks[t].dest in s.conns && s.conns[s.tasks[t].dest].open
    ensures WaitsOrArrives(s, Apply(s, step), t, s.tasks[t].dest)
  {
    if step.Route? {
      assert InvAt(s, FixedSizePeerID(0, []), t, step.c, 0, 0);
      RouteLeavesSends(s, step.c, step.route, t);
    } else if step.Send? {
      SendOrWait(s, step.tag, step.send, t, s.tasks[t].dest);
    } else {
      OthersLeaveSends(s, step);
    }
  }

  // ----- addressing, order and bound -----

  /** A channel holds at most 32 messages, all of them for its own peer; they are written to the socket in the
      order the channel accepted them, each at most once. */
  lemma ChannelsAreOrdered(run: seq<Step>, c: ConnId)
    requires After(run).Some? && c in After(run).value.conns
    ensures var s := After(run).value;
            var conn := s.conns[c];
            && |conn.queue| <= CHANNEL_CAPACITY
            && conn.written <= conn.accepted
            && NoDuplicates(conn.accepted)
            && (forall t :: t in conn.accepted ==> t < |s.built| && s.built[t].to == conn.id)
  {
    RunKeepsInv(run);
    var s := After(run).value;
    var p0 := FixedSizePeerID(0, []);
    assert InvAt(s, p0, 0, c, 0, 0);
    forall t | t in s.conns[c].accepted ensures t < |s.built| && s.built[t].to == s.conns[c].id {
      assert InvAt(s, p0, t, c, 0, 0);
    }
  }

  /** How often the loop of `c` has written a message, or failed to. */
  function Writes(run: seq<Step>, c: ConnId, ok: bool): nat {
    if run == [] then 0
    else Writes(run[..|run| - 1], c, ok) + if run[|run| - 1] == Serve(c, Write(ok)) then 1 else 0
  }

  function WrittenBy(s: State, c: ConnId): seq<Tag> { if c in s.conns then s.conns[c].written else [] }

  function LostBy(s: State, c: ConnId): seq<Tag> { if c in s.conns then s.conns[c].lost else [] }

  /** What a step adds to the messages written, or lost, by connection `c`. */
  ghost predicate Records(s: State, s': State, c: ConnId, done: seq<Tag>, failed: seq<Tag>) {
    WrittenBy(s', c) == WrittenBy(s, c) + done && LostBy(s', c) == LostBy(s, c) + failed
  }

  lemma JoinRecords(s: State, k: ConnId, step: JoinStep, c: ConnId)
    requires CanJoin(s, k, step)
    ensures Records(s, DoJoin(s, k, step), c, [], [])
  {
  }

  lemma RouteRecords(s: State, k: ConnId, step: RouteStep, c: ConnId)
    requires CanRoute(s, k, step)
    ensures Records(s, DoRoute(s, k, step), c, [], [])
  {
  }

  lemma ReceiveRecords(s: State, k: ConnId, action: Action, c: ConnId)
    requires At(s, k, Selecting)
    ensures Records(s, DoReceive(s, k, action), c, [], [])
  {
  }

  lemma ServeRecords(s: State, k: ConnId, step: ServeStep, c: ConnId)
    requires CanServe(s, k, step)
    ensures Records(s, DoServe(s, k, step), c,
                    if k == c && step == Write(true) then [s.conns[c].pc.tag] else [],
                    if k == c && step == Write(false) then [s.conns[c].pc.tag] else [])
  {
  }

  lemma EndRecords(s: State, k: ConnId, step: EndStep, c: ConnId)
    requires CanEnd(s, k, step)
    ensures Records(s, DoEnd(s, k, step), c, [], [])
  {
  }

  lemma SendRecords(s: State, tag: Tag, step: SendStep, c: ConnId)
    requires CanSend(s, tag, step)
    ensures Records(s, DoSend(s, tag, step), c, [], [])
  {
  }

  /** A write moves the message in hand, to the ones written or to the ones lost; nothing else does. */
  lemma StepRecords(s: State, step: Step, c: ConnId)
    requires Enabled(s, step)
    ensures Records(s, Apply(s, step), c,
                    if step == Serve(c, Write(true)) then [s.conns[c].pc.tag] else [],
                    if step == Serve(c, Write(false)) then [s.conns[c].pc.tag] else [])
  {
    match step
    case Join(k, j) => JoinRecords(s, k, j, c);
    case Route(k, r) => RouteRecords(s, k, r, c);
    case Receive(k, frame) => ReceiveRecords(s, k, Interpret(frame), c);
    case Serve(k, v) => ServeRecords(s, k, v, c);
    case End(k, e) => EndRecords(s, k, e, c);
    case Send(tag, d) => SendRecords(s, tag, d, c);
  }

  /** The messages written to a socket are as many as the writes that succeeded, and those lost as many as the writes
      that failed, of which there is at most one. */
  lemma {:induction false} WritesAreRecorded(run: seq<Step>, c: ConnId)
    requires After(run).Some?
    ensures |WrittenBy(After(run).value, c)| == Writes(run, c, true)
    ensures |LostBy(After(run).value, c)| == Writes(run, c, false) <= 1
  {
    if run != [] {
      var prefix, step := run[..|run| - 1], run[|run| - 1];
      WritesAreRecorded(prefix, c);
      StepRecords(After(prefix).value, step, c);
      if step == Serve(c, Write(false)) {
        NoneLostYet(prefix, c);
      }
    }
  }

  lemma NoneLostYet(run: seq<Step>, c: ConnId)
    requires After(run).Some? && c in After(run).value.conns && After(run).value.conns[c].pc.Writing?
    ensures LostBy(After(run).value, c) == []
  {
    RunKeepsInv(run);
    assert InvAt(After(run).value, FixedSizePeerID(0, []), 0, c, 0, 0);
  }

  /** A channel's history only grows at its end: no step reorders or withdraws an accepted message. */
  lemma HistoryGrows(s: State, step: Step, c: ConnId)
    requires Enabled(s, step) && c in s.conns
    ensures c in Apply(s, step).conns && s.conns[c].id == Apply(s, step).conns[c].id
    ensures s.conns[c].accepted <= Apply(s, step).conns[c].accepted
  {
    match step
    case Join(k, j) => JoinGrows(s, k, j, c);
    case Route(k, r) => RouteGrows(s, k, r, c);
    case Receive(k, frame) =>
    case Serve(k, v) => ServeGrows(s, k, v, c);
    case End(k, e) =>
    case Send(tag, d) =>
  }

  lemma JoinGrows(s: State, k: ConnId, step: JoinStep, c: ConnId)
    requires CanJoin(s, k, step) && c in s.conns
    ensures c in DoJoin(s, k, step).conns && s.conns[c].id == DoJoin(s, k, step).conns[c].id
    ensures s.conns[c].accepted == DoJoin(s, k, step).conns[c].accepted
  {
  }

  lemma RouteGrows(s: State, k: ConnId, step: RouteStep, c: ConnId)
    requires CanRoute(s, k, step) && c in s.conns
    ensures c in DoRoute(s, k, step).conns && s.conns[c].id == DoRoute(s, k, step).conns[c].id
    ensures s.conns[c].accepted == DoRoute(s, k, step).conns[c].accepted
  {
  }

  lemma ServeGrows(s: State, k: ConnId, step: ServeStep, c: ConnId)
    requires CanServe(s, k, step) && c in s.conns
    ensures c in DoServe(s, k, step).conns && s.conns[c].id == DoServe(s, k, step).conns[c].id
    ensures s.conns[c].accepted == DoServe(s, k, step).conns[c].accepted
  {
  }

  lemma PrefixRuns(run: seq<Step>, k: nat)
    requires After(run).Some? && k <= |run|
    ensures After(run[..k]).Some?
    decreases |run| - k
  {
    if k == |run| {
      assert run[..k] == run;
    } else {
      PrefixRuns(run, k + 1);
      assert run[..k + 1][..k] == run[..k];
    }
  }

  /** The state before step `k` of a run. */
  ghost function Before(run: seq<Step>, k: nat): (s: State)
    requires After(run).Some? && k < |run|
    ensures After(run[..k]) == Some(s) && Enabled(s, run[k])
  {
    PrefixRuns(run, k);
    PrefixRuns(run, k + 1);
    assert run[..k + 1][..k] == run[..k];
    After(run[..k]).value
  }

  /** The connection a Forward goes to, once looked up. */
  function DestOf(s: State, t: Tag): Option<ConnId> {
    if t in s.tasks then Some(s.tasks[t].dest)
    else if t < |s.built| && s.built[t].batch < |s.batches| && Holds(s, Builder(s, t), t) then
      Some(s.conns[Builder(s, t)].pc.dest)
    else None
  }

  /** The step that built a Forward decided where it goes: to the connection registered for its target at that
      moment, and to no later one of the same identifier, or nowhere if there was none. */
  ghost predicate Decided(s: State, s': State, t: Tag)
    requires t < |s'.built|
  {
    var to := s'.built[t].to;
    && |s.built| == t
    && (t in s'.notFound <==> to !in s.peers)
    && DestOf(s', t) == if to in s.peers then Some(s.peers[to]) else None
  }

  lemma {:induction false} DecidedAtLookup(run: seq<Step>, t: Tag) returns (k: nat)
    requires After(run).Some? && t < |After(run).value.built|
    ensures k < |run| && run[k].Route? && run[k].route == Lookup
    ensures Decided(Before(run, k), After(run).value, t)
    ensures OwnerIs(After(run).value, t, run[k].c)
  {
    var n := |run| - 1;
    var s := Before(run, n);
    RunKeepsInv(run[..n]);
    if t < |s.built| {
      k := DecidedAtLookup(run[..n], t);
      assert run[..n][..k] == run[..k];
      DestStands(s, run[n], t);
    } else {
      k := n;
      OnlyLookupBuilds(s, run[n]);
      LookupDecides(s, run[n].c);
    }
  }

  /** What no step changes about a Forward already built. */
  ghost predicate Stands(s: State, s': State, t: Tag)
    requires t < |s.built|
  {
    && t < |s'.built| && s'.built[t] == s.built[t]
    && (t in s'.notFound <==> t in s.notFound)
    && DestOf(s', t) == DestOf(s, t)
    && forall c :: OwnerIs(s, t, c) ==> OwnerIs(s', t, c)
  }

  /** Connection `c` is at work on the batch of Forward `t`, or was. */
  predicate OwnerIs(s: State, t: Tag, c: ConnId) {
    t < |s.built| && s.built[t].batch < |s.batches| && s.batches[s.built[t].batch].owner == c
  }

  lemma OthersBuildNothing(s: State, step: Step)
    requires Enabled(s, step) && !step.Route?
    ensures Apply(s, step).built == s.built
  {
    match step
    case Join(c, j) => assert DoJoin(s, c, j).built == s.built;
    case Receive(c, frame) => assert DoReceive(s, c, Interpret(frame)).built == s.built;
    case Serve(c, v) => assert DoServe(s, c, v).built == s.built;
    case End(c, e) => assert DoEnd(s, c, e).built == s.built;
    case Send(tag, d) => assert DoSend(s, tag, d).built == s.built;
  }

  lemma OnlyLookupBuilds(s: State, step: Step)
    requires Enabled(s, step) && |s.built| < |Apply(s, step).built|
    ensures step.Route? && step.route == Lookup && |Apply(s, step).built| == |s.built| + 1
  {
    if step.Route? {
      RouteBuilds(s, step.c, step.route);
    } else {
      OthersBuildNothing(s, step);
    }
  }

  lemma RouteBuilds(s: State, c: ConnId, step: RouteStep)
    requires CanRoute(s, c, step)
    ensures |DoRoute(s, c, step).built| == |s.built| + if step == Lookup then 1 else 0
  {
  }

  lemma LookupDecides(s: State, c: ConnId)
    requires Inv(s) && CanRoute(s, c, Lookup)
    ensures Decided(s, DoLookup(s, c), |s.built|) && OwnerIs(DoLookup(s, c), |s.built|, c)
  {
    Bounds(s);
  }

  lemma DestStands(s: State, step: Step, t: Tag)
    requires Inv(s) && Enabled(s, step) && t < |s.built|
    ensures Stands(s, Apply(s, step), t)
  {
    Bounds(s);
    var p0 := FixedSizePeerID(0, []);
    assert InvAt(s, p0, t, 0, 0, 0);
    match step
    case Join(c, j) => JoinStands(s, c, j, t);
    case Route(c, r) => RouteStands(s, c, r, t);
    case Receive(c, frame) => ReceiveStands(s, c, Interpret(frame), t);
    case Serve(c, v) => ServeStands(s, c, v, t);
    case End(c, e) => EndStands(s, c, e, t);
    case Send(tag, d) => SendStands(s, tag, d, t);
  }

  lemma JoinStands(s: State, c: ConnId, step: JoinStep, t: Tag)
    requires CanJoin(s, c, step) && t < |s.built|
    ensures Stands(s, DoJoin(s, c, step), t)
  {
  }

  lemma RouteStands(s: State, c: ConnId, step: RouteStep, t: Tag)
    requires CanRoute(s, c, step) && t < |s.built| && BuiltAt(s, t) && RunsAt(s, c) && HeldAt(s, c)
    ensures Stands(s, DoRoute(s, c, step), t)
  {
  }

  lemma ReceiveStands(s: State, c: ConnId, action: Action, t: Tag)
    requires At(s, c, Selecting) && t < |s.built| && BuiltAt(s, t)
    ensures Stands(s, DoReceive(s, c, action), t)
  {
  }

  lemma ServeStands(s: State, c: ConnId, step: ServeStep, t: Tag)
    requires CanServe(s, c, step) && t < |s.built|
    ensures Stands(s, DoServe(s, c, step), t)
  {
  }

  lemma EndStands(s: State, c: ConnId, step: EndStep, t: Tag)
    requires CanEnd(s, c, step) && t < |s.built|
    ensures Stands(s, DoEnd(s, c, step), t)
  {
  }

  lemma SendStands(s: State, tag: Tag, step: SendStep, t: Tag)
    requires CanSend(s, tag, step) && t < |s.built|
    ensures Stands(s, DoSend(s, tag, step), t)
  {
  }

  // ----- the counter of sent messages -----

  ghost function AcceptedFor(s: State, p: PeerID): set<Tag> {
    set t | t in s.tasks && t < |s.built| && s.built[t].to == p
            && s.tasks[t].dest in s.conns && t in s.conns[s.tasks[t].dest].accepted
  }

  ghost function NotYetCounted(s: State, p: PeerID): set<Tag> {
    set t | t in s.tasks && t < |s.built| && s.built[t].to == p && s.tasks[t].pc == Sent
  }

  /** A peer's sent counter lags the messages its channels accepted by exactly the sends between the two. */
  lemma CounterLags(run: seq<Step>, p: PeerID)
    requires After(run).Some?
    ensures var s := After(run).value;
            Reading(s.sentTotal, p) + |NotYetCounted(s, p)| == |AcceptedFor(s, p)|
  {
    RunKeepsInv(run);
    var s := After(run).value;
    assert InvAt(s, p, 0, 0, 0, 0);
    assert AcceptedFor(s, p) == CountedTo(s, p) + NotYetCounted(s, p) by {
      forall t | t in s.tasks
        ensures (t in AcceptedFor(s, p)) <==> (t in CountedTo(s, p) || t in NotYetCounted(s, p))
      {
        assert InvAt(s, p, t, s.tasks[t].dest, 0, 0);
      }
    }
  }
}
