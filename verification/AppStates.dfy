/** `AppState` in the form of the source (sf-server/src/state.rs): an object whose methods run uninterrupted,
    and what such a run is of the signalling machine. */
module AppStates {
  import opened Bytes
  import opened PeerIdentity
  import opened Signalling
  import opened SignallingInvariants

  /** A spawned send: the connection whose handler was cloned, and the Forward it carries. */
  datatype Dispatch = Dispatch(dest: ConnId, from: PeerID, to: PeerID, data: PeerEvent)

  datatype PeerHandler = PeerHandler(id: PeerID, conn: ConnId)

  datatype AddResult = Added(id: PeerID) | PeerAlreadyExists(id: PeerID)

  /** The send of one Forward: a task, if its target is registered. */
  function SendOne(peers: map<PeerID, ConnId>, from: PeerID, data: PeerEvent, to: PeerID): seq<Dispatch> {
    if to in peers then [Dispatch(peers[to], from, to, data)] else []
  }

  /** The sends of one broadcast to a registry that does not change. */
  function Sends(peers: map<PeerID, ConnId>, from: PeerID, data: PeerEvent, ids: seq<PeerID>): seq<Dispatch> {
    if ids == [] then []
    else Sends(peers, from, data, ids[..|ids| - 1]) + SendOne(peers, from, data, ids[|ids| - 1])
  }

  function Without(ids: seq<PeerID>, exclude: Option<PeerID>): seq<PeerID> {
    if ids == [] then []
    else
      Without(ids[..|ids| - 1], exclude) + if exclude == Some(ids[|ids| - 1]) then [] else [ids[|ids| - 1]]
  }

  lemma SendsNext(peers: map<PeerID, ConnId>, from: PeerID, data: PeerEvent, ids: seq<PeerID>, i: nat,
                  exclude: Option<PeerID>)
    requires i < |ids|
    ensures var before := Sends(peers, from, data, Without(ids[..i], exclude));
            Sends(peers, from, data, Without(ids[..i + 1], exclude)) ==
            if exclude == Some(ids[i]) then before else before + SendOne(peers, from, data, ids[i])
  {
    assert ids[..i + 1][..i] == ids[..i];
    var targets := Without(ids[..i], exclude);
    if exclude == Some(ids[i]) {
      assert targets + [] == targets;
    } else {
      assert (targets + [ids[i]])[..|targets|] == targets;
    }
  }

  lemma NothingSentYet(peers: map<PeerID, ConnId>, from: PeerID, data: PeerEvent, ids: seq<PeerID>,
                       exclude: Option<PeerID>)
    ensures Sends(peers, from, data, Without(ids[..0], exclude)) == []
  {
  }

  lemma Regroup(a: seq<Dispatch>, b: seq<Dispatch>, c: seq<Dispatch>)
    ensures (a + b) + c == a + (b + c)
  {
  }

  class AppState {
    var peers: map<PeerID, PeerHandler>
    var peerCount: int
    var messageBroadcast: nat
    var messageForwarded: map<PeerID, nat>
    /** The sends spawned so far, in order. */
    var spawned: seq<Dispatch>

    /** The registry as the machine has it. */
    function Registry(): map<PeerID, ConnId>
      reads `peers
    {
      map p | p in peers :: peers[p].conn
    }

    constructor ()
      ensures peers == map[] && peerCount == 0 && messageBroadcast == 0 && messageForwarded == map[] && spawned == []
    {
      peers, peerCount, messageBroadcast, messageForwarded, spawned := map[], 0, 0, map[], [];
    }

    method AddPeer(handler: PeerHandler, system: PeerID) returns (r: AddResult, ghost ids: seq<PeerID>)
      modifies this
      ensures messageForwarded == old(messageForwarded)
      ensures handler.id in old(peers) ==>
                r == PeerAlreadyExists(handler.id) && peers == old(peers) && peerCount == old(peerCount)
                && spawned == old(spawned) && messageBroadcast == old(messageBroadcast)
      ensures handler.id !in old(peers) ==>
                r == Added(handler.id) && peers == old(peers)[handler.id := handler]
                && peerCount == old(peerCount) + 1 && messageBroadcast == old(messageBroadcast) + 1
                && Enumerates(ids, Registry())
                && spawned == old(spawned) + Sends(Registry(), system, NewPeer(handler.id), ids)
    {
      hide Sends, Without;
      if handler.id in peers {
        r, ids := PeerAlreadyExists(handler.id), [];
        return;
      }
      peers := peers[handler.id := handler];
      peerCount := peerCount + 1;
      ids := BroadcastForwardExcept(system, NewPeer(handler.id), None);
      WithoutNone(ids);
      r := Added(handler.id);
    }

    method RemovePeer(id: PeerID)
      modifies this`peers, this`peerCount
      ensures peers == old(peers) - {id}
      ensures peerCount == old(peerCount) - if id in old(peers) then 1 else 0
    {
      if id in peers {
        peers := peers - {id};
        peerCount := peerCount - 1;
      }
    }

    method SendToPeer(id: PeerID, from: PeerID, data: PeerEvent)
      modifies this`spawned
      ensures id in peers ==> spawned == old(spawned) + [Dispatch(peers[id].conn, from, id, data)]
      ensures id !in peers ==> spawned == old(spawned)
      ensures spawned == old(spawned) + SendOne(Registry(), from, data, id)
    {
      if id in peers {
        spawned := spawned + [Dispatch(peers[id].conn, from, id, data)];
      }
    }

    method HandleForward(from: PeerID, connection: PeerID, to: Option<PeerID>, data: PeerEvent)
      returns (ghost ids: seq<PeerID>)
      modifies this`spawned, this`messageBroadcast, this`messageForwarded
      ensures to.Some? ==> spawned == old(spawned) + if to.value !in peers then []
                                                     else [Dispatch(peers[to.value].conn, from, to.value, data)]
      ensures to.Some? ==> spawned == old(spawned) + SendOne(Registry(), from, data, to.value)
                           && Reading(messageForwarded, to.value) == Reading(old(messageForwarded), to.value) + 1
                           && messageBroadcast == old(messageBroadcast)
      ensures to.None? ==> Enumerates(ids, Registry())
                           && spawned == old(spawned) + Sends(Registry(), connection, data, ids)
                           && messageForwarded == old(messageForwarded)
                           && messageBroadcast == old(messageBroadcast) + 1
    {
      hide Sends, Without;
      match to {
        case Some(target) =>
          ids := [target];
          ForwardSingle(from, target, data);
        case None =>
          ids := BroadcastForwardExcept(connection, data, None);
          WithoutNone(ids);
      }
    }

    method ForwardSingle(from: PeerID, to: PeerID, data: PeerEvent)
      modifies this`spawned, this`messageForwarded
      ensures spawned == old(spawned) + SendOne(Registry(), from, data, to)
      ensures messageForwarded == old(messageForwarded)[to := Reading(old(messageForwarded), to) + 1]
    {
      SendToPeer(to, from, data);
      messageForwarded := messageForwarded[to := Reading(messageForwarded, to) + 1];
    }

    /** The identifiers of the registry, in whatever order its iterator yields them. */
    method CollectIds() returns (ids: seq<PeerID>)
      ensures Enumerates(ids, Registry())
    {
      ids := [];
      var rest := peers.Keys;
      while rest != {}
        invariant rest <= peers.Keys
        invariant forall p :: p in peers <==> p in rest || p in ids
        invariant forall i :: 0 <= i < |ids| ==> ids[i] !in rest
        invariant forall i, j :: 0 <= i < j < |ids| ==> ids[i] != ids[j]
      {
        var p :| p in rest;
        ids := ids + [p];
        rest := rest - {p};
      }
      assert forall i :: 0 <= i < |ids| ==> ids[i] in ids;
    }

    method BroadcastForwardExcept(from: PeerID, data: PeerEvent, exclude: Option<PeerID>)
      returns (ghost ids: seq<PeerID>)
      modifies this`spawned, this`messageBroadcast
      ensures Enumerates(ids, Registry())
      ensures spawned == old(spawned) + Sends(Registry(), from, data, Without(ids, exclude))
      ensures messageBroadcast == old(messageBroadcast) + 1
    {
      hide SendOne, Sends, Without;
      var collected := CollectIds();
      ids := collected;
      ghost var registry, before := Registry(), spawned;
      NothingSentYet(registry, from, data, collected, exclude);
      var i := 0;
      while i < |collected|
        invariant 0 <= i <= |collected|
        invariant peers == old(peers) && messageBroadcast == old(messageBroadcast)
        invariant spawned == before + Sends(registry, from, data, Without(collected[..i], exclude))
      {
        var pid := collected[i];
        SendsNext(registry, from, data, collected, i, exclude);
        if exclude != Some(pid) {
          Regroup(before, Sends(registry, from, data, Without(collected[..i], exclude)),
                  SendOne(registry, from, data, pid));
          SendToPeer(pid, from, data);
          assert Registry() == registry;
        }
        i := i + 1;
      }
      assert collected[..i] == collected;
      messageBroadcast := messageBroadcast + 1;
    }
  }

  lemma {:induction false} WithoutNone(ids: seq<PeerID>)
    ensures Without(ids, None) == ids
  {
    if ids != [] {
      WithoutNone(ids[..|ids| - 1]);
      assert ids == ids[..|ids| - 1] + [ids[|ids| - 1]];
    }
  }

  lemma {:induction false} WithoutKeeps(ids: seq<PeerID>, exclude: Option<PeerID>, p: PeerID)
    ensures p in Without(ids, exclude) <==> p in ids && exclude != Some(p)
    ensures NoDuplicates(ids) ==> NoDuplicates(Without(ids, exclude))
  {
    if ids != [] {
      var init, last := ids[..|ids| - 1], ids[|ids| - 1];
      WithoutKeeps(init, exclude, p);
      WithoutKeeps(init, exclude, last);
      assert ids == init + [last];
      assert NoDuplicates(ids) ==> last !in init;
    }
  }

  lemma {:induction false} SendsAll(peers: map<PeerID, ConnId>, from: PeerID, data: PeerEvent, ids: seq<PeerID>)
    requires forall i :: 0 <= i < |ids| ==> ids[i] in peers
    ensures |Sends(peers, from, data, ids)| == |ids|
    ensures forall i :: 0 <= i < |ids| ==>
              Sends(peers, from, data, ids)[i] == Dispatch(peers[ids[i]], from, ids[i], data)
  {
    if ids != [] {
      SendsAll(peers, from, data, ids[..|ids| - 1]);
    }
  }

  /** An uninterrupted broadcast spawns one send for every registered peer but the excluded one, each to the
      connection registered under that peer. */
  lemma BroadcastReachesAll(peers: map<PeerID, ConnId>, from: PeerID, data: PeerEvent, ids: seq<PeerID>,
                            exclude: Option<PeerID>, p: PeerID)
    requires Enumerates(ids, peers)
    ensures var targets := Without(ids, exclude);
            && NoDuplicates(targets)
            && (p in targets <==> p in peers && exclude != Some(p))
            && |Sends(peers, from, data, targets)| == |targets|
            && forall i :: 0 <= i < |targets| ==>
                 targets[i] in peers
                 && Sends(peers, from, data, targets)[i] == Dispatch(peers[targets[i]], from, targets[i], data)
  {
    var targets := Without(ids, exclude);
    WithoutKeeps(ids, exclude, p);
    forall i | 0 <= i < |targets| ensures targets[i] in peers {
      WithoutKeeps(ids, exclude, targets[i]);
    }
    SendsAll(peers, from, data, targets);
  }

  // ----- uninterrupted runs of the machine -----

  predicate AtBatch(s: State, c: ConnId) {
    && c in s.conns && s.conns[c].pc.Dispatching? && s.conns[c].pc.batch < |s.batches|
    && |s.batches[s.conns[c].pc.batch].sent| <= |s.batches[s.conns[c].pc.batch].ids|
  }

  function BatchOf(s: State, c: ConnId): Batch
    requires AtBatch(s, c)
  {
    s.batches[s.conns[c].pc.batch]
  }

  /** The next turn of the batch: a lookup, and a spawn if the target was found. */
  function Turn(s: State, c: ConnId): State
    requires AtBatch(s, c) && CanRoute(s, c, Lookup)
  {
    var s1 := DoRoute(s, c, Lookup);
    if s1.conns[c].pc.Spawning? then DoRoute(s1, c, Spawn) else s1
  }

  /** Connection `c` finishes its batch with no other step in between. */
  function Alone(s: State, c: ConnId): State
    requires AtBatch(s, c)
    decreases |BatchOf(s, c).ids| - |BatchOf(s, c).sent|
  {
    if CanRoute(s, c, Finish) then DoRoute(s, c, Finish) else Alone(Turn(s, c), c)
  }

  /** The sends spawned for the Forwards with tags from `lo` up to `hi`. */
  function Spawned(s: State, lo: nat, hi: nat): seq<Dispatch>
    requires hi <= |s.built|
  {
    if hi <= lo then []
    else
      var e := s.built[hi - 1];
      Spawned(s, lo, hi - 1)
      + if hi - 1 in s.tasks then [Dispatch(s.tasks[hi - 1].dest, e.from, e.to, e.data)] else []
  }

  lemma {:induction false} SpawnedStays(s: State, s': State, lo: nat, hi: nat)
    requires hi <= |s.built| && s.built <= s'.built
    requires forall t: Tag :: t < hi ==> (t in s.tasks <==> t in s'.tasks) && (t in s.tasks ==> s'.tasks[t] == s.tasks[t])
    ensures Spawned(s', lo, hi) == Spawned(s, lo, hi)
  {
    if hi > lo {
      SpawnedStays(s, s', lo, hi - 1);
    }
  }

  lemma TurnSends(s: State, c: ConnId)
    requires AtBatch(s, c) && CanRoute(s, c, Lookup) && |s.built| !in s.tasks
    ensures var s' := Turn(s, c);
            var to := BatchOf(s, c).ids[|BatchOf(s, c).sent|];
            && AtBatch(s', c)
            && BatchOf(s', c) == BatchOf(s, c).(sent := BatchOf(s, c).sent + [|s.built|])
            && |s'.built| == |s.built| + 1 && s.built <= s'.built
            && s'.built[|s.built|].from == BatchOf(s, c).from && s'.built[|s.built|].data == BatchOf(s, c).data
            && s'.built[|s.built|].to == to
            && s'.peers == s.peers && s'.gauge == s.gauge
            && s'.tasks == if to in s.peers then s.tasks[|s.built| := Task(s.peers[to], Sending)] else s.tasks
  {
  }

  /** What has been spawned for the batch so far is what the method would have spawned for its first turns. */
  ghost predicate InStep(s: State, c: ConnId, lo: nat)
    requires AtBatch(s, c)
  {
    var batch := BatchOf(s, c);
    lo <= |s.built| && Spawned(s, lo, |s.built|) == Sends(s.peers, batch.from, batch.data, batch.ids[..|batch.sent|])
  }

  lemma TurnKeepsInStep(s: State, c: ConnId, lo: nat)
    requires AtBatch(s, c) && CanRoute(s, c, Lookup) && InStep(s, c, lo)
    requires forall t :: t in s.tasks ==> t < |s.built|
    ensures AtBatch(Turn(s, c), c) && InStep(Turn(s, c), c, lo)
  {
    var s', n := Turn(s, c), |BatchOf(s, c).sent|;
    TurnSends(s, c);
    SpawnedStays(s, s', lo, |s.built|);
    assert BatchOf(s, c).ids[..n + 1][..n] == BatchOf(s, c).ids[..n];
  }

  lemma FinishSends(s: State, c: ConnId, lo: nat)
    requires AtBatch(s, c) && CanRoute(s, c, Finish) && InStep(s, c, lo)
    ensures var s' := DoRoute(s, c, Finish);
            && s'.peers == s.peers && s'.gauge == s.gauge && At(s', c, Selecting) && |s'.built| == |s.built|
            && Spawned(s', lo, |s'.built|) == Sends(s.peers, BatchOf(s, c).from, BatchOf(s, c).data, BatchOf(s, c).ids)
  {
    var batch := BatchOf(s, c);
    assert batch.ids[..|batch.sent|] == batch.ids;
    SpawnedStays(s, DoRoute(s, c, Finish), lo, |s.built|);
  }

  /** Uninterrupted, the machine's broadcast spawns exactly what the method spawns, and touches neither registry
      nor gauge. */
  lemma {:induction false} AloneSends(s: State, c: ConnId, lo: nat)
    requires AtBatch(s, c) && InStep(s, c, lo)
    requires forall t :: t in s.tasks ==> t < |s.built|
    ensures var s' := Alone(s, c);
            var batch := BatchOf(s, c);
            && s'.peers == s.peers && s'.gauge == s.gauge && At(s', c, Selecting)
            && |s'.built| == |s.built| + |batch.ids| - |batch.sent|
            && Spawned(s', lo, |s'.built|) == Sends(s.peers, batch.from, batch.data, batch.ids)
    decreases |BatchOf(s, c).ids| - |BatchOf(s, c).sent|
  {
    if CanRoute(s, c, Finish) {
      FinishSends(s, c, lo);
    } else {
      TurnSends(s, c);
      TurnKeepsInStep(s, c, lo);
      AloneSends(Turn(s, c), c, lo);
    }
  }
}
