/** The client's objects in the form of the source (sf-wasm: peer.rs, peer_manager.rs, client.rs): what their
    methods do when nothing comes in between, and what that is of the handshake machine. */
module PeerClients {
  import opened Bytes
  import opened PeerIdentity
  import opened Handshake

  /** The outcome of `handle_offer`: the browser object, the answer sent if any, and whether it succeeded. */
  datatype Outcome = Outcome(browser: Browser, sent: Option<Description>, ok: bool)

  function HandleOutcome(browser: Browser, d: Description, sdp: nat): Outcome {
    var b := if browser.remote.None? then browser.Do(SetRemote(d)) else browser;
    if browser.remote.None? && !browser.Allows(SetRemote(d)) then Outcome(browser, None, false)
    else if d.Answer? then Outcome(b, None, true)
    else if !b.Allows(CreateAnswer) then Outcome(b, None, false)
    else Outcome(b.Do(SetLocal(AnswerTo(b, sdp))), Some(AnswerTo(b, sdp)), true)
  }

  class Peer {
    const id: PeerID
    const hostId: PeerID
    var pc: Browser
    var channel: bool
    /** Whether the WebSocket's sender is there. */
    const connected: bool
    /** The Forward requests queued on the WebSocket, each with sender and target. */
    var sent: seq<(PeerID, PeerID, Description)>

    constructor (id: PeerID, hostId: PeerID, connected: bool)
      ensures this.id == id && this.hostId == hostId && this.connected == connected
      ensures pc == FRESH && !channel && sent == []
    {
      this.id, this.hostId, this.connected := id, hostId, connected;
      pc, channel, sent := FRESH, false, [];
    }

    /** `sdp` is what the browser's offer says, `queued` whether the WebSocket takes the message. Without a sender the
        call fails only after the local description is set. */
    method MakeOffer(sdp: nat, queued: bool) returns (ok: bool)
      modifies this
      ensures ok <==> old(pc).signaling != HaveRemoteOffer && connected
      ensures old(pc).signaling != HaveRemoteOffer ==>
                pc.local == Some(Offer(sdp)) && pc.signaling == HaveLocalOffer
                && pc.remote == old(pc).remote && pc.remoteSets == old(pc).remoteSets
      ensures old(pc).signaling == HaveRemoteOffer ==> pc == old(pc)
      ensures sent == old(sent) + if ok && queued then [(hostId, id, Offer(sdp))] else []
      ensures channel
    {
      channel := true;
      if !pc.Allows(CreateOffer) {
        return false;
      }
      pc := pc.Do(CreateOffer);
      if !pc.Allows(SetLocal(Offer(sdp))) {
        return false;
      }
      pc := pc.Do(SetLocal(Offer(sdp)));
      ok := SendPeerRequest(Offer(sdp), queued);
    }

    /** The remote description is the first one given and stays; an offer, and nothing else, is answered, and then by
        an answer to the remote description in place. It fails when a description comes that the browser does not
        expect, or when there is nothing to answer through. */
    method HandleOffer(d: Description, sdp: nat, queued: bool) returns (ok: bool)
      modifies this
      ensures channel == old(channel)
      ensures pc.remote == if old(pc).remote.Some? then old(pc).remote
                           else if Expects(old(pc), d) then Some(d) else None
      ensures pc.remoteSets == old(pc).remoteSets + if old(pc).remote.None? && Expects(old(pc), d) then 1 else 0
      ensures d.Answer? ==>
                && (ok <==> old(pc).remote.Some? || old(pc).signaling == HaveLocalOffer)
                && pc.local == old(pc).local && sent == old(sent)
      ensures d.Offer? ==>
                && (ok <==> Answerable(old(pc)) && connected)
                && (Answerable(old(pc)) ==>
                      pc.signaling == Stable && pc.remote.Some? && pc.local == Some(Answer(sdp, pc.remote.value.sdp)))
                && (!Answerable(old(pc)) ==> pc == old(pc))
                && sent == old(sent) + if ok && queued then [(hostId, id, pc.local.value)] else []
      ensures connected && queued ==>
                var r := HandleOutcome(old(pc), d, sdp);
                pc == r.browser && ok == r.ok && sent == old(sent) + if r.sent.Some? then [(hostId, id, r.sent.value)] else []
    {
      if pc.remote.None? {
        if !pc.Allows(SetRemote(d)) {
          return false;
        }
        pc := pc.Do(SetRemote(d));
      }
      if d.Offer? {
        if !pc.Allows(CreateAnswer) {
          return false;
        }
        var answer := AnswerTo(pc, sdp);
        pc := pc.Do(SetLocal(answer));
        ok := SendPeerRequest(answer, queued);
        return;
      }
      ok := true;
    }

    /** A candidate is handed to the browser only once the remote description is set. */
    method HandleCandidate() returns (ok: bool)
      modifies this
      ensures pc == old(pc).(candidates := old(pc).candidates + if ok then 1 else 0)
      ensures ok <==> old(pc).remote.Some?
      ensures sent == old(sent) && channel == old(channel)
    {
      if pc.remote.None? {
        return false;
      }
      pc := pc.Do(AddCandidate);
      ok := true;
    }

    /** A missing sender is an error; a message that cannot be queued is only logged. */
    method SendPeerRequest(d: Description, queued: bool) returns (ok: bool)
      modifies this`sent
      ensures ok <==> connected
      ensures sent == old(sent) + if connected && queued then [(hostId, id, d)] else []
    {
      if !connected {
        return false;
      }
      if queued {
        sent := sent + [(hostId, id, d)];
      }
      ok := true;
    }
  }

  /** An offer that the browser can still answer: its first one, or one that came with the remote description. */
  predicate Answerable(browser: Browser) {
    if browser.remote.None? then browser.signaling != HaveLocalOffer else browser.signaling == HaveRemoteOffer
  }

  /** A description the browser takes as its first remote one. */
  predicate Expects(browser: Browser, d: Description) {
    if d.Offer? then browser.signaling != HaveLocalOffer else browser.signaling == HaveLocalOffer
  }

  class PeerManager {
    var peers: map<PeerID, Peer>
    var knownPeerIds: seq<PeerID>
    var peerCount: nat

    /** Every peer is known, and no identifier is listed twice. */
    ghost predicate Valid()
      reads this
    {
      NoDuplicates(knownPeerIds) && forall p :: p in peers ==> p in knownPeerIds
    }

    constructor ()
      ensures Valid() && peers == map[] && knownPeerIds == [] && peerCount == 0
    {
      peers, knownPeerIds, peerCount := map[], [], 0;
    }

    method AddPeer(peer: Peer)
      requires Valid()
      modifies this
      ensures Valid()
      ensures peers == old(peers)[peer.id := peer] && peerCount == old(peerCount) + 1
      ensures knownPeerIds == old(knownPeerIds) + if peer.id in old(knownPeerIds) then [] else [peer.id]
    {
      peers := peers[peer.id := peer];
      AddKnownPeerId(peer.id);
      peerCount := peerCount + 1;
    }

    method AddKnownPeerId(id: PeerID)
      requires NoDuplicates(knownPeerIds)
      modifies this`knownPeerIds
      ensures NoDuplicates(knownPeerIds)
      ensures knownPeerIds == old(knownPeerIds) + if id in old(knownPeerIds) then [] else [id]
    {
      if id !in knownPeerIds {
        knownPeerIds := knownPeerIds + [id];
      }
    }
  }

  class Client {
    const peerId: PeerID
    const manager: PeerManager
    /** Whether a WebSocket connection has been made. */
    var connected: bool

    constructor (peerId: PeerID, manager: PeerManager)
      ensures this.peerId == peerId && this.manager == manager && !connected
    {
      this.peerId, this.manager, connected := peerId, manager, false;
    }

    /** A peer object is never replaced: it is found or, the first time, created and registered. Creating it needs a
        WebSocket connection and a peer connection, which the browser may refuse. */
    method GetOrCreatePeer(id: PeerID, granted: bool) returns (r: Option<Peer>)
      requires manager.Valid()
      modifies manager
      ensures manager.Valid()
      ensures r.Some? <==> id in old(manager.peers) || (connected && granted)
      ensures r.Some? ==> id in manager.peers && manager.peers[id] == r.value
      ensures id in old(manager.peers) || r.None? ==>
                manager.peers == old(manager.peers) && manager.knownPeerIds == old(manager.knownPeerIds)
                && manager.peerCount == old(manager.peerCount)
      ensures id !in old(manager.peers) && r.Some? ==>
                fresh(r.value) && r.value.id == id && r.value.hostId == peerId && r.value.connected
                && r.value.pc == FRESH && manager.peers == old(manager.peers)[id := r.value]
                && manager.peerCount == old(manager.peerCount) + 1
    {
      if id in manager.peers {
        return Some(manager.peers[id]);
      }
      if !connected || !granted {
        return None;
      }
      var peer := new Peer(id, peerId, true);
      manager.AddPeer(peer);
      r := Some(peer);
    }

    /** A candidate for an unknown peer is an error; it creates nothing. */
    method HandleWebRtcCandidate(id: PeerID) returns (ok: bool)
      modifies manager.peers.Values
      ensures ok <==> id in manager.peers && old(manager.peers[id].pc).remote.Some?
      ensures ok ==> manager.peers[id].pc == old(manager.peers[id].pc).(candidates := old(manager.peers[id].pc).candidates + 1)
      ensures manager.peers == old(manager.peers)
    {
      if id !in manager.peers {
        return false;
      }
      ok := manager.peers[id].HandleCandidate();
    }
  }

  // ----- the same steps of the machine -----

  /** The reader of `x` works through the description it is handling with no other step in between. */
  function ReadAlone(s: State, x: Side, sdp: nat): State
    requires At(s, x).reading.Handling? && At(s, x).peer.Some?
  {
    var s1 := DoHandle(s, x, CheckRemote);
    var s2 := if At(s1, x).reading.SettingRemote? then DoHandle(s1, x, ApplyRemote) else s1;
    if At(s2, x).reading == Waiting then s2
    else
      var s3 := DoHandle(s2, x, MakeAnswer(sdp));
      DoHandle(DoHandle(s3, x, SetAnswer), x, SendAnswer)
  }

  /** Where every browser call is legal, handling a description in one go leaves the same browser object and
      sends the same answer as the machine's steps; where one is not, the machine has recorded it. */
  lemma HandleOfferIsReadAlone(s: State, x: Side, sdp: nat)
    requires At(s, x).reading.Handling? && At(s, x).peer.Some? && !s.illegal
    ensures var r := HandleOutcome(At(s, x).peer.value, At(s, x).reading.d, sdp);
            var s' := ReadAlone(s, x, sdp);
            && (r.ok <==> !s'.illegal)
            && (r.ok ==> At(s', x).peer == Some(r.browser) && At(s', x).reading == Waiting
                         && s'.descriptions == s.descriptions
                                               + if r.sent.Some? then [Message(Other(x), r.sent.value)] else [])
  {
    assert s.descriptions + [] == s.descriptions;
  }
}
