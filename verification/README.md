# Signalling, metrics, peer identities and WebTransport polling in Dafny

A Dafny model of the concurrent core and the data cores of the repository, with proofs of what holds on every run.

* **The signalling server** (`Signalling*.dfy`, `AppStates.dfy`). The registry of peers, the gauge and one bounded
  channel per connection form a machine whose steps are the atomic operations: check, insert and count; remove and
  uncount; list, look up, spawn; enqueue and count; take, write, receive, drop. A run is any interleaving of
  connection loops and spawned sends. Invariants are stated at one identifier, message, connection, batch and turn
  and carried through every step; the theorems are about all runs: every Forward is in exactly one place, who it can
  reach is settled at its lookup, the gauge is accounted for exactly, and an arrival is announced to everyone there.
  `AppStates` has the same operations as methods of an object and ties an uninterrupted run of the machine to them.
* **The handshake of two clients** (`Handshake.dfy`, `PeerClients.dfy`). Descriptions and candidates travel over a
  server that may reorder and lose them. The browser's connection object is the signalling state machine of
  section 3.2 of RFC 8829; a call it does not allow is recorded.
* **Metrics** (`Labels.dfy`, `Histograms.dfy`, `HistogramSnapshots.dfy`, `HistogramRegistry.dfy`,
  `CounterRegistry.dfy`). Canonical label keys, the label printer and a parser that undoes it, bucket bounds and the
  search for a slot, observers and readers interleaving on one histogram, and registries of shared cells whose answers
  follow from the log of calls.
* **Peer identities** (`PeerIdentity.dfy`, `PeerSerde.dfy`, `ExtractPeerId.dfy`). Hexadecimal text, length-prefixed
  bytes, the serde buffer, equality, order and hashing, and the way from a client's URL to the server's value.
* **WebTransport** (`ByteStream.dfy`, `Multiaddrs.dfy`, `Polling.dfy`, `NodePolling.dfy`). The leftover-buffer reader
  against a plain byte stream, addresses there and back, and the nested polling loops with their termination measure.

Modelling conventions. Each atomic or map operation is one sequentially consistent step, and listing the registry for
a broadcast is one step; both are idealisations. A Rust string is the sequence of its UTF-8 bytes. A panic is a third
outcome beside a value and an error. A finite f64 is a real number; NaN and the infinities are kept where the code
looks at them. Counters are unbounded. Clocks, random identifiers, frames that arrive, writes that succeed or fail and
what the browser puts into a description are parameters of the steps.

Where the code and its documentation disagree, the model follows the code: `FixedSizePeerID::from_str` says that the
text must have `2 * S` characters, but any shorter even length is accepted, and an odd length panics
(`PeerIdentity.FromStrOutcomes`).

## Results that show a limit of the code

* Two connections of one identifier can both pass the check before either inserts; then the gauge stays one too high
  (`SignallingLifecycle.OverlapMiscounts`). It is right at rest, and an identifier has at most one live
  connection at all times, exactly when no insert found its identifier taken (`SignallingLifecycle.GaugeIsExact`,
  `SignallingLifecycle.OneConnectionPerPeer`), as when check and insert never overlap
  (`SignallingLifecycle.NoOverlapNoOverwrite`).
* A histogram snapshot can have slots that add up to less, or to more, than its count
  (`HistogramSnapshots.SlotsCanTrail`, `HistogramSnapshots.SlotsCanLead`); `HistogramSnapshots.SnapshotIsExact` says
  by how much, and exactly when they are equal.
* A reader with a fixed buffer of 2 to 8191 bytes can make `poll_read` index past the leftover; one of at most one
  byte, or of at least 8192, cannot (`ByteStream.FixedBufferIsSafe`).
* Label keys are not escaped, so that label lists with `="` in a key can print alike (`Labels.KeysAreNotEscaped`); a
  list that gives one key two values need not have one canonical key (`Labels.KeyIsDetermined`).
* An address that mentions WebTransport without being dialable passes the node's check and panics in the transport
  (`Multiaddrs.Dial`).
* Both sides offering at once leads to a call that section 3.2 of RFC 8829 does not allow
  (`Handshake.CrossingOffers`); with one side offering there is none (`Handshake.LegalIfOneOffers`).
* A node's poll goes round for ever exactly when one of its transports has a closed accept channel
  (`NodePolling.Node.PollNextEvent`).

## Model

| member | source | states |
|---|---|---|
| SignallingInvariants.StepKeepsInv | sf-server/src/state.rs:41-150 | every step of every connection loop and every spawned send keeps the invariant on registry, gauge, batches, messages in flight and channels |
| SignallingInvariants.RunKeepsInv | sf-server/src/ws.rs:40-113 | the invariant holds after every interleaving, from the empty server on |
| SignallingInvariants.GaugeFollows | sf-server/src/state.rs:49-71 | the gauge equation survives any step that moves one connection and the gauge together with the registry |
| SignallingInvariants.ServeKeepsChannels | sf-server/src/ws.rs:82-112 | taking, writing, failing and shutting down keep the 32 bound and the split of the channel's history into written, lost, in hand, queued and discarded |
| SignallingTheorems.Conservation | sf-server/src/state.rs:74-143 | after every run each Forward built is in exactly one place: not found, held by its dispatcher, waiting in its spawned send, refused, or at one index of one part of one channel; nothing else is anywhere, and one refused was for a connection whose receiver is gone |
| SignallingTheorems.SendWaitsForRoom | sf-server/src/peer_handler.rs:65-72 | in every reachable state an unfinished send to an open channel waits or goes in at every step, however full the channel; it can go in exactly when fewer than 32 messages are queued, and fails exactly when the receiver is gone |
| SignallingTheorems.RefusedIsGone | sf-server/src/peer_handler.rs:65-72 | over runs, a send that failed is for a connection whose receiver is gone |
| SignallingTheorems.ChannelsAreOrdered | sf-server/src/ws.rs:51-98 | a channel holds at most 32 messages, all addressed to its own peer, and writes them in the order of acceptance, each at most once |
| SignallingTheorems.WritesAreRecorded | sf-server/src/ws.rs:82-98 | over runs, a connection has as many messages written as writes that succeeded and as many lost as writes that failed, of which there is at most one |
| SignallingTheorems.HistoryGrows | sf-server/src/peer_handler.rs:65-72 | no step reorders or withdraws what a channel accepted, or changes a connection's identifier |
| SignallingTheorems.DecidedAtLookup | sf-server/src/state.rs:74-87 | the lookup that built a Forward settles for good which connection it goes to: the one registered for its target then, never a later one of the same identifier, or none |
| SignallingTheorems.CounterLags | sf-server/src/peer_handler.rs:65-72 | the counter of messages sent to a peer plus the sends accepted but not yet counted is the number its channels accepted |
| SignallingLifecycle.GaugeIsExact | sf-server/src/state.rs:41-72 | in every reachable state gauge = registered peers + overwriting inserts - inserts not yet counted + removals not yet counted; at rest it is the registry size if and only if no insert overwrote another |
| SignallingLifecycle.KeysNameTheirHandlers | sf-server/src/state.rs:49-71 | in every reachable state each key of the registry leads to a live connection of that identifier whose receiver is open |
| SignallingLifecycle.OneConnectionPerPeer | sf-server/src/state.rs:41-72 | at no moment of a run has an identifier more than one live connection loop if and only if no insert found its identifier taken; then the registry is exactly the live connections, and the gauge at rest counts them |
| SignallingLifecycle.RunKeepsSole | sf-server/src/state.rs:41-72 | as long as no insert found its identifier taken, every live connection is the registered one |
| SignallingLifecycle.NoOverlapNoOverwrite | sf-server/src/state.rs:44-50 | when no two connections of one identifier are between check and insert at once, no insert finds its identifier taken |
| SignallingLifecycle.OverlapMiscounts | sf-server/src/state.rs:44-50 | a run in which two connections of one identifier are both accepted, and the gauge reads two for one registered peer |
| SignallingLifecycle.RejectionChangesNothing | sf-server/src/ws.rs:54-57 | over runs, a connection is rejected, for good, if and only if its check found its identifier taken; it is then never registered, owns no broadcast or forward, is sent nothing and has accepted nothing |
| SignallingLifecycle.RejectingKeepsTheRest | sf-server/src/state.rs:44-47 | the rejecting check leaves registry, gauge, messages and every other connection as they were |
| SignallingLifecycle.LoopEnds | sf-server/src/ws.rs:80-113 | a live loop ends if and only if a write fails, a Close frame comes or a read fails, not when its read half or its channel has nothing more; its identifier is unregistered when it has ended, and its receiver is there as long as it lives |
| SignallingLifecycle.ChannelOutlivesLoop | sf-server/src/ws.rs:82-108 | over runs, with every holder of a sender counted (own loop, registry, dispatcher, unfinished send), the outbound branch of a running loop never sees its channel ended, and the `select!` never has both branches disabled |
| SignallingRequests.ForwardStarts | sf-server/src/state.rs:93-114 | a frame with a target starts one dispatch, to that target, of its data and in the name it gives, and changes nothing else |
| SignallingRequests.BroadcastStarts | sf-server/src/state.rs:93-107 | a frame without a target makes the connection list the registry with the frame's data and in its own name |
| SignallingRequests.OtherFrames | sf-server/src/peer_handler.rs:76-114 | Close leaves the loop; binary frames, pings, pongs, keep-alives and text that does not parse change nothing |
| SignallingRequests.ForwardIsSent | sf-server/src/state.rs:74-114 | in every run, once it has been dispatched, a client's message with a target has been sent exactly once to that target and to nobody else, with the client's data and in the name it gave, to the connection registered for the target at the lookup or nowhere |
| SignallingRequests.BroadcastIsSent | sf-server/src/state.rs:93-143 | in every run, once it has been dispatched, a client's message without a target has been sent exactly once to each peer registered at the listing that followed it and to nobody else, in the connection's own name whatever name the client gave |
| SignallingRequests.EndedHearsNothing | sf-server/src/ws.rs:100-108 | over runs, once the read half has ended no frame, read error or further end comes from it |
| SignallingRequests.NobodyIsStuck | sf-server/src/ws.rs:80-113 | in every reachable state a connection that is neither rejected nor closed can take a step of its own, unless it is in its select loop with nothing queued and its read half ended |
| SignallingBroadcast.BroadcastCovers | sf-server/src/state.rs:116-143 | a finished broadcast or forward has built one Forward per target listed at its start and nothing else, each addressed to its target and no target twice |
| SignallingBroadcast.StartOf | sf-server/src/state.rs:93-126 | every batch goes back to one step of the run, which listed the registry of that moment or took the single target, the sender and the data of a request |
| SignallingBroadcast.ArrivalIsAnnounced | sf-server/src/state.rs:41-150 | in every run, once the announcement started by a connection's first listing of the registry is over, whatever the connection does since, each peer registered at that listing has been sent exactly one Forward of it, the NewPeer of that connection in the sender's name chosen when it was counted, which goes to the connection registered for the peer at its turn or nowhere if there is none; nobody else has been sent one |
| SignallingBroadcast.ListingOf | sf-server/src/state.rs:53-54 | no connection gets past its arrival without having listed the registry, and so has a first listing |
| SignallingBroadcast.FirstListingAnnounces | sf-server/src/state.rs:53-54 | the first listing of a connection, before anything its client can ask for, is made to announce that connection |
| SignallingBroadcast.SenderOfArrival | sf-server/src/state.rs:49-54 | a connection about to announce itself does so in the name that its counting step chose |
| SignallingBroadcast.HearsOfItself | sf-server/src/state.rs:41-57 | where no insert found its identifier taken, exactly one of the Forwards announcing a connection is for its own identifier, and it has been spawned to the connection itself |
| AppStates.AppState.constructor | sf-server/src/state.rs:25-39 | the empty server |
| AppStates.AppState.AddPeer | sf-server/src/state.rs:41-57 | a known identifier changes nothing; a new one is registered and counted, and its arrival is sent to every peer now registered, itself included |
| AppStates.AppState.RemovePeer | sf-server/src/state.rs:67-72 | the identifier is gone afterwards, and the gauge falls only if it was there |
| AppStates.AppState.SendToPeer | sf-server/src/state.rs:74-87 | one send to the registered connection, or none |
| AppStates.AppState.HandleForward | sf-server/src/state.rs:93-107 | a target gets the message in the name the client gave; without a target all peers get it in the connection's own name |
| AppStates.AppState.ForwardSingle | sf-server/src/state.rs:109-114 | the target's counter rises whether or not the target is there |
| AppStates.AppState.CollectIds | sf-server/src/state.rs:126-126 | every registered identifier, each once |
| AppStates.AppState.BroadcastForwardExcept | sf-server/src/state.rs:116-134 | the spawned sends are those to the collected identifiers without the excluded one, in order |
| AppStates.BroadcastReachesAll | sf-server/src/state.rs:116-134 | an uninterrupted broadcast sends once to each registered peer but the excluded one, and to no other |
| AppStates.AloneSends | sf-server/src/state.rs:126-132 | the machine's broadcast with no step in between spawns exactly what the method spawns and leaves registry and gauge alone |
| Handshake.StepKeepsInv | sf-wasm/src/peer.rs:63-112 | every step of either client, every delivery, loss and failure keeps the invariant that at most one description is being made, carried or handled, and where the two browsers then are |
| Handshake.NoGlare | sf-wasm/src/client.rs:228-286 | if only one side offers, whichever it is, in any order of delivery: no browser call is illegal, each side sets its remote description at most once, the callee's is the caller's offer, the caller's is the callee's answer to that offer, and then both are stable |
| Handshake.LegalIfOneOffers | sf-wasm/src/peer.rs:63-124 | with a given set of sides free to offer, every browser call of every run is legal if and only if they are no more than one |
| Handshake.MirrorApplies | sf-wasm/src/peer.rs:63-124 | exchanging the two sides before a step or after it is the same |
| Handshake.StepCosts | sf-wasm/src/peer.rs:88-112 | every step about descriptions lowers a measure, whoever offers; no other step changes it |
| Handshake.DescriptionsEnd | sf-wasm/src/websocket.rs:85-99 | no run takes more than 32 steps about descriptions: an answer sets off no further one |
| Handshake.ExchangeCompletes | sf-wasm/src/peer.rs:63-112 | nothing keeps an exchange from completing: a run that ends with the caller's offer and the callee's answer as the descriptions of both, both stable and nothing on its way |
| Handshake.CandidatesAccountedFor | sf-wasm/src/peer.rs:159-180 | over runs, the candidates on their way to a side, received by it and lost are exactly as many as the other side gathered |
| Handshake.CandidatesAreGiven | sf-wasm/src/peer.rs:114-124 | over runs, the browser of a side has been given exactly the candidates that came when its remote description was set |
| Handshake.CrossingOffers | sf-wasm/src/peer.rs:89-93 | a run in which both sides offer and a browser is asked for a call it does not allow |
| PeerClients.Peer.MakeOffer | sf-wasm/src/peer.rs:63-86 | the offer becomes the local description unless an offer of the other side is pending; it is sent if there is a sender, and without one the call fails with the description already set |
| PeerClients.Peer.HandleOffer | sf-wasm/src/peer.rs:89-112 | a remote description once set is kept; an offer the browser can still answer, and nothing else, is answered, by an answer to the remote description in place; exactly when the call fails |
| PeerClients.Peer.HandleCandidate | sf-wasm/src/peer.rs:114-124 | a candidate is handed to the browser exactly when the remote description is set, and is an error otherwise |
| PeerClients.HandleOfferIsReadAlone | sf-wasm/src/peer.rs:89-112 | the method does what the machine's steps do with none in between, and succeeds exactly when the machine records no illegal call |
| PeerClients.PeerManager.AddPeer | sf-wasm/src/peer_manager.rs:28-34 | the peer is stored and known, and no identifier is listed twice |
| PeerClients.PeerManager.AddKnownPeerId | sf-wasm/src/peer_manager.rs:45-58 | a new identifier is appended, a known one changes nothing |
| PeerClients.Client.GetOrCreatePeer | sf-wasm/src/client.rs:271-286 | a peer object once stored is found again and never replaced; a new one needs the WebSocket connection and the browser's consent, without which nothing changes |
| PeerClients.Client.HandleWebRtcCandidate | sf-wasm/src/client.rs:248-257 | a candidate reaches the browser of the peer it names exactly if that peer is known and has a remote description; it creates no peer |
| Labels.KeyForIsKey | sf-metrics/src/inmemory/common.rs:32-44 | the key is a permutation of the labels, ordered by key |
| Labels.KeysInOrder | sf-metrics/src/inmemory/common.rs:38-43 | of two different keys in a canonical list the one with the lesser byte where they first differ, or the shorter one, comes first |
| Labels.NoLabelsIsNoLabels | sf-metrics/src/inmemory/histogram.rs:102-105 | a handle without labels is the one with the empty list of labels |
| Labels.KeyIsCanonical | sf-metrics/src/inmemory/common.rs:32-44 | however the unstable sort arranges ties, two lists in which no key has two values get equal keys if and only if they are permutations of each other |
| Labels.KeyIsDetermined | sf-metrics/src/inmemory/common.rs:42-43 | a list has only one possible key if and only if none of its keys has two values |
| Labels.TwoPassesAreOne | sf-metrics/src/inmemory/common.rs:80-86 | replacing backslashes and then quotes is escaping character by character |
| Labels.EscapeSpecial | sf-metrics/src/inmemory/common.rs:83-83 | quotes and backslashes, and only they, get a backslash in front |
| Labels.PrintedExample | sf-metrics/src/inmemory/common.rs:80-86 | the printed form of two labels, written out |
| Labels.FormatIsPrinted | sf-metrics/src/inmemory/common.rs:80-86 | the joined list label by label |
| Labels.PrinterCanBeUndone | sf-metrics/src/inmemory/common.rs:80-86 | a parser that cuts at `="` gets back any list, with any values, if and only if no key contains `="` |
| Labels.PrinterIsInjective | sf-metrics/src/inmemory/common.rs:80-86 | different lists with no `="` in a key never print alike |
| Labels.KeysAreNotEscaped | sf-metrics/src/inmemory/common.rs:83-83 | two different lists that print alike when a key contains `="` |
| Histograms.RetainFinite | sf-metrics/src/inmemory/histogram.rs:23-23 | of ordered bounds exactly the finite ones remain, in order |
| Histograms.Dedup | sf-metrics/src/inmemory/histogram.rs:24-24 | ordered bounds become strictly increasing ones with the same elements |
| Histograms.NewBuckets | sf-metrics/src/inmemory/histogram.rs:17-30 | buckets are strictly increasing and have exactly the finite elements of the bounds given, or of the default list when none are |
| Histograms.BucketsAreDetermined | sf-metrics/src/inmemory/histogram.rs:21-24 | the finite elements alone determine the buckets |
| Histograms.DefaultBuckets | sf-metrics/src/inmemory/histogram.rs:18-20 | without bounds given, the buckets are the eleven from 0.005 to 10, in order |
| Histograms.FindSlot | sf-metrics/src/inmemory/histogram.rs:61-65 | the binary search ends at the slot with every bound before it below the value and every other bound not below it, whether or not the value is a bound |
| Histograms.SlotIsUnique | sf-metrics/src/inmemory/histogram.rs:61-65 | no value lies in two slots |
| Histograms.SlotsShareOut | sf-metrics/src/inmemory/histogram.rs:67-69 | for every history, the slots' counts add up to the number of finite observations |
| HistogramRegistry.HistogramAtomics.constructor | sf-metrics/src/inmemory/histogram.rs:156-162 | a new instance fits the empty history |
| HistogramRegistry.HistogramStorage.GetOrCreate | sf-metrics/src/inmemory/histogram.rs:32-39 | one instance per key, created empty the first time and found again afterwards; keys with an instance are exactly those a handle was created with |
| HistogramRegistry.InMemoryHistogram.Observe | sf-metrics/src/inmemory/histogram.rs:55-90 | a finite value adds one to the slot whose interval it lies in and to no other, one to the count, and itself to the sum; any other value adds nothing; the branch for a slot out of range is never taken |
| HistogramRegistry.InMemoryHistogram.WithLabels | sf-metrics/src/inmemory/histogram.rs:97-100 | the handle of a label set shares its instance with every other handle of it |
| HistogramRegistry.InMemoryHistogram.WithoutLabels | sf-metrics/src/inmemory/histogram.rs:102-105 | likewise for the empty label set |
| HistogramRegistry.InMemoryHistogramTimer.DoObserve | sf-metrics/src/inmemory/histogram.rs:124-145 | records the elapsed time unless the timer has recorded already |
| HistogramRegistry.RunTimer | sf-metrics/src/inmemory/histogram.rs:115-146 | however often a timer is observed before it is dropped, it adds one observation: the first explicit one, else the drop |
| HistogramRegistry.InMemoryMetrics.EnsureStorage | sf-metrics/src/inmemory/implementation.rs:168-172 | a storage is made for an unknown name only, with the bounds then given |
| HistogramRegistry.InMemoryMetrics.HandleFor | sf-metrics/src/inmemory/histogram.rs:48-51 | a handle on the instance without labels, made empty the first time and found again afterwards |
| HistogramRegistry.InMemoryMetrics.Histogram | sf-metrics/src/inmemory/implementation.rs:167-186 | the first registration of a name fixes its bounds, those given if there are some; later ones change none and reach the same instance |
| HistogramRegistry.InMemoryMetrics.GetHistogramValues | sf-metrics/src/inmemory/implementation.rs:38-56 | nothing if and only if no handle with that name and these labels was ever created; otherwise the first registration's bounds and the counts, sum and total of the whole history |
| HistogramRegistry.InMemoryMetrics.HandlesShare | sf-metrics/src/inmemory/histogram.rs:48-51 | two handles of the registry, however old, share an instance if and only if they agree in name and labels |
| HistogramRegistry.ObserveRegistered | sf-metrics/src/inmemory/histogram.rs:55-90 | an observation through any handle leaves every instance of the registry fitting its history |
| HistogramSnapshots.StepKeepsInv | sf-metrics/src/inmemory/histogram.rs:67-90 | every step of every observer and every reader keeps the accounts of slots, sum and count and the bounds of every reader |
| HistogramSnapshots.SlotsLeadCount | sf-metrics/src/inmemory/histogram.rs:67-90 | at every moment of every run the slots add up to the count plus the observers between their slot and their count |
| HistogramSnapshots.SnapshotIsExact | sf-metrics/src/inmemory/implementation.rs:46-54 | for every finished read, slots read + observations missed = count read + observers in flight when it was read; so the slots add up to the count if and only if as many were missed as were in flight |
| HistogramSnapshots.UndisturbedReadAddsUp | sf-metrics/src/inmemory/implementation.rs:46-54 | the slots add up to the count when no observation began during the read and none was in flight at its end |
| HistogramSnapshots.ReadsWhatIsThere | sf-metrics/src/inmemory/implementation.rs:46-54 | in every run, each slot a reader reads counts all observations then in it, its sum is what had been added to the sum when it read it, and its count likewise |
| HistogramSnapshots.QuietReadIsExact | sf-metrics/src/inmemory/implementation.rs:46-54 | a read that starts with no observer in flight, and during which none begins, sees the slots, sum and count of all observations so far |
| HistogramSnapshots.SnapshotBounds | sf-metrics/src/inmemory/implementation.rs:46-54 | the slots a reader saw add up to at least the count when it started and at most the count it read plus the observers then in flight |
| HistogramSnapshots.AtRestAsIfInTurn | sf-metrics/src/inmemory/histogram.rs:67-90 | however observers interleave, once none is in flight slots, sum and count are those of the observations made one after the other |
| HistogramSnapshots.SlotsCanTrail | sf-metrics/src/inmemory/implementation.rs:46-54 | a read whose slots add up to less than its count |
| HistogramSnapshots.SlotsCanLead | sf-metrics/src/inmemory/implementation.rs:46-54 | a read whose slots add up to more than its count |
| CounterRegistry.CountersNeverDecrease | sf-metrics/src/inmemory/counter.rs:23-33 | over any further calls a counter's value neither falls nor disappears |
| CounterRegistry.IncrementReachesPermutations | sf-metrics/src/inmemory/common.rs:32-44 | an increment under one list of labels shows under another if and only if they are permutations |
| CounterRegistry.CounterStorage.GetOrCreateDefault | sf-metrics/src/inmemory/common.rs:71-78 | one cell per label key, created at zero the first time and found again afterwards; the registry stays linked |
| CounterRegistry.InMemoryCounter.constructor | sf-metrics/src/inmemory/counter.rs:16-19 | a handle on the cell of its labels, logged as created |
| CounterRegistry.InMemoryCounter.Increment | sf-metrics/src/inmemory/counter.rs:23-25 | the cell's value rises by one; every cell still holds what the log says, with one more under this handle's name and labels |
| CounterRegistry.InMemoryCounter.IncrementBy | sf-metrics/src/inmemory/counter.rs:27-33 | the cell's value rises by the amount, or stays when that is negative; every cell still holds what the log says |
| CounterRegistry.InMemoryCounter.WithLabels | sf-metrics/src/inmemory/counter.rs:35-38 | a handle of the same counter under other labels, at any time |
| CounterRegistry.InMemoryCounter.WithoutLabels | sf-metrics/src/inmemory/counter.rs:40-43 | a handle of the same counter without labels |
| CounterRegistry.InMemoryMetrics.Counter | sf-metrics/src/inmemory/implementation.rs:147-155 | a handle under that name, new or not, with the registry still linked and every older handle still held |
| CounterRegistry.InMemoryMetrics.GetCounterValue | sf-metrics/src/inmemory/implementation.rs:24-29 | nothing if and only if no handle with that name and labels was ever created; otherwise the sum of all non-negative increments through any of them |
| PeerIdentity.FromStrOutcomes | sf-peer-id/src/peer_id.rs:223-246 | text is accepted exactly when it is at most 2S hexadecimal digits, evenly many; longer text is refused with both lengths; it panics exactly when the digits are oddly many; otherwise the first bad character is reported with its index |
| PeerIdentity.ParsePeerID | sf-peer-id/src/peer_id.rs:223-246 | the loop over a zeroed buffer is the parser by recursion |
| PeerIdentity.Print | sf-peer-id/src/peer_id.rs:271-277 | two lower-case digits for each used byte |
| PeerIdentity.DisplayAt | sf-peer-id/src/peer_id.rs:271-277 | each byte is printed at its own place, the higher digit first |
| PeerIdentity.Digits | sf-peer-id/src/peer_id.rs:271-277 | the printed digit of each value, and the value of each digit in either case |
| PeerIdentity.PrintThenParse | sf-peer-id/src/peer_id.rs:223-277 | printing then parsing gives back every well-formed identifier, for every capacity |
| PeerIdentity.ParseThenPrint | sf-peer-id/src/peer_id.rs:242-244 | parsing then printing gives the text in lower case if and only if it is at most 255 bytes, where the size is not truncated |
| PeerIdentity.WriteThenRead | sf-peer-id/src/peer_id.rs:132-162 | what was written is read back whole, consuming exactly that, if and only if the size passes the truncated capacity; trailing bytes are rejected |
| PeerIdentity.ReadAfterSize | sf-peer-id/src/peer_id.rs:148-162 | a written size is refused when it passes the truncated capacity, then when too few bytes follow; otherwise that many bytes are taken, padded with zeros, and the rest is left |
| PeerIdentity.AcceptedIsValid | sf-peer-id/src/peer_id.rs:33-47 | any accepted bytes give an identifier of at most the capacity, padded with zeros, and are those written for it if and only if the size in front has its shortest form |
| PeerIdentity.IdentityIsCoherent | sf-peer-id/src/peer_id.rs:121-255 | on padded identifiers the hand-written equality, the derived order's Equal, the data fed to a hasher and structural equality agree |
| PeerIdentity.OrderIsTotal | sf-peer-id/src/peer_id.rs:16-22 | the derived order is antisymmetric and transitive |
| PeerIdentity.OrderIsBySizeThenBytes | sf-peer-id/src/peer_id.rs:16-22 | a shorter identifier comes first, and of two equally long ones the one with the lesser byte where they first differ |
| PeerIdentity.PaddingBreaksOrder | sf-peer-id/src/peer_id.rs:54-57 | through the mutable bytes two equal identifiers can come to compare unequal |
| PeerSerde.WriteAll | sf-peer-id/src/peer_id.rs:141-142 | writing into the buffer succeeds exactly when it fits |
| PeerSerde.Serialize | sf-peer-id/src/serde.rs:33-45 | the bytes handed over are those written, or an error when they do not fit |
| PeerSerde.VisitSeq | sf-peer-id/src/serde.rs:64-85 | elements are taken into the fixed buffer, and too many or a failing one is an error |
| PeerSerde.BufferSuffices | sf-peer-id/src/serde.rs:33-44 | the buffer of S + 1 bytes is large enough exactly for identifiers shorter than 128 bytes or shorter than S, so for all when S is at most 127 |
| PeerSerde.SerdeRoundTrip | sf-peer-id/src/serde.rs:33-86 | both visitors give back what was serialised, the one over elements from exactly its bytes |
| PeerSerde.VisitorsAcceptOnlyValid | sf-peer-id/src/serde.rs:56-85 | both visitors accept only well-formed identifiers |
| ExtractPeerId.PercentDecodeLoop | sf-server/src/extract_peer_id.rs:139-160 | the loop is the decoder by recursion, with the check for UTF-8 |
| ExtractPeerId.DecodeUndoesEncoding | sf-server/src/extract_peer_id.rs:139-160 | any choice of digits to percent-encode decodes to the same text |
| ExtractPeerId.DecodesExactly | sf-server/src/extract_peer_id.rs:139-160 | the decoder succeeds exactly on the percent-encodings of some text, each of which it decodes to that text |
| ExtractPeerId.Utf8Exactly | sf-server/src/extract_peer_id.rs:158-160 | the bytes that pass are exactly the UTF-8 encodings of sequences of Unicode scalar values |
| ExtractPeerId.ParamIsFound | sf-server/src/extract_peer_id.rs:112-117 | the first parameter whose key is exactly peer_id is found among any others |
| ExtractPeerId.OnlyPairsHaveKey | sf-server/src/extract_peer_id.rs:112-117 | a pair counts exactly if it is the key, the first '=' and the value |
| ExtractPeerId.HeaderSettles | sf-server/src/extract_peer_id.rs:83-106 | a header decides alone: empty, and refused; not at most 64 hexadecimal digits, and refused; oddly many, and a panic; else taken for the well-formed identifier that prints as its lower case |
| ExtractPeerId.ParameterSettles | sf-server/src/extract_peer_id.rs:108-136 | without a header the first parameter does likewise, with the text it encodes; one that encodes no text, or no UTF-8, is refused |
| ExtractPeerId.NothingIsMissing | sf-server/src/extract_peer_id.rs:108-136 | without a header, and without a query or a parameter of that key, the request is refused as incomplete |
| ExtractPeerId.QueryRoundTrip | sf-server/src/extract_peer_id.rs:108-136 | every identifier of size at least one arrives, however its digits are encoded and whatever surrounds it |
| ExtractPeerId.ClientUrlNamesClient | sf-wasm/src/websocket.rs:19-19 | the URL a client builds, on any host, has a query from which the server takes that client's identifier |
| ExtractPeerId.ExtractPanics | sf-server/src/extract_peer_id.rs:93-136 | a request makes the server panic exactly when its header or, without one, its decoded parameter is oddly many hexadecimal digits within the capacity |
| ByteStream.Stream.PollRead | sf-wt-transport/src/stream.rs:70-104 | every poll does what the specification by cases says, to the caller's buffer, to the leftover and to the receive stream; a panic changes nothing |
| ByteStream.ReadSplits | sf-wt-transport/src/stream.rs:70-104 | what a read delivers, followed by what is then unread, is what was unread |
| ByteStream.ReadFills | sf-wt-transport/src/stream.rs:70-104 | a read is pending exactly when there is neither leftover nor arrival, fails exactly when a failure is next, and otherwise fills the buffer or takes all of the leftover or of the next chunk; an arrival is taken only without a leftover |
| ByteStream.NothingIsLost | sf-wt-transport/src/stream.rs:70-104 | over any arrivals and any reads, delivered bytes, leftover and unread chunks in a row are all bytes received |
| ByteStream.DrainedIsComplete | sf-wt-transport/src/stream.rs:70-104 | a reader that has used up the source has every byte |
| ByteStream.EndedOnlyWhenDrained | sf-wt-transport/src/stream.rs:87-91 | end of stream is reported only with no leftover, and exactly when it is next; the panic exactly when the leftover is shorter than the buffer |
| ByteStream.FixedBufferIsSafe | sf-wt-transport/src/stream.rs:71-104 | a fixed buffer size never panics, whatever arrives, if and only if it is at most one byte or at least the 8192 bytes that one read asks for |
| Multiaddrs.MultiaddrToSocketaddr | sf-wt-transport/src/lib.rs:142-175 | succeeds exactly on the dialable shape, and then gives the address and the last peer identifier |
| Multiaddrs.AnnouncedNamesBack | sf-wt-transport/src/listener/native.rs:144-150 | an announced socket address, with any peer identifiers after it, names exactly that socket address; the announcement is four components, over QUIC |
| Multiaddrs.DialAnnounced | sf-wt-transport/src/lib.rs:142-175 | dialing what was announced reaches the announced address |
| Multiaddrs.AnnouncementIsInjective | sf-wt-transport/src/listener/native.rs:144-150 | different socket addresses are announced differently |
| Multiaddrs.ExtractIpPort | sf-wt-transport/src/platform/native.rs:21-48 | the last address and the last port, an error if either is missing |
| Multiaddrs.LastOfEach | sf-wt-transport/src/platform/native.rs:21-48 | an address counts when no other comes after it, a UDP or a TCP port likewise |
| Multiaddrs.NoneOfEach | sf-wt-transport/src/platform/native.rs:21-48 | an address, or a port, is missing exactly when no component carries one |
| Multiaddrs.ReadersAgree | sf-wt-transport/src/platform/native.rs:21-48 | on dialable addresses the two readers agree if and only if the skipped component carries no other address and no other port |
| Multiaddrs.ListenOnAnnounced | sf-wt-transport/src/platform/native.rs:50-52 | listening on what was announced binds the announced address and port |
| Multiaddrs.ExtractProtocol | sf-node/src/node.rs:109-123 | the protocol is found exactly when WebTransport occurs |
| Multiaddrs.Dial | sf-node/src/node.rs:31-41 | which addresses are refused, by which check, which panic, and what the others name |
| Multiaddrs.ListenaddrIsInjective | sf-wt-transport/src/listener/native.rs:135-142 | an interface address is announced exactly when its family is the listener's, and differently from every other |
| Polling.Listener.PollIfAddr | sf-wt-transport/src/listener/native.rs:106-128 | takes interface events up to and including the first of its own family or failure: one that came up is answered with ListenAddr, one that went down with AddrExpired, of that address with the listener's port, and a failure with the error |
| Polling.Listener.PollNext | sf-wt-transport/src/listener/native.rs:67-95 | takes the event pending, else the first interface event to be told, else the first connection; with none, it is pending, or goes round for ever if the accept channel is closed |
| Polling.AnnounceTells | sf-wt-transport/src/listener/native.rs:106-142 | nothing is announced exactly for an address of the other family; Up gives ListenAddr, Down AddrExpired, both of that address, and a failure its error |
| Polling.PollTakesHead | sf-wt-transport/src/listener/native.rs:67-95 | a poll takes the head of the queue of events, and finds nothing only if the queue is empty |
| Polling.QueueIsInTurn | sf-wt-transport/src/listener/native.rs:67-95 | the queue is the announcements of the interface events followed by the connections |
| Polling.EachSourceInOrder | sf-wt-transport/src/listener/native.rs:106-142 | over any arrivals and polls, what was emitted for the interfaces and what is still due says one thing, the right one, for each event of the own family or failure, in order; likewise connections |
| NodePolling.WebTransport.ListenOn | sf-wt-transport/src/lib.rs:101-108 | on success the address is announced, twice unless it is a wildcard, interfaces are watched exactly if it is one, and the former listener is gone; on failure nothing changes |
| NodePolling.WebTransport.Poll | sf-wt-transport/src/lib.rs:111-123 | takes the head of the transport's queue; with an empty queue it is pending, or goes round for ever if and only if the listener's accept channel is closed |
| NodePolling.Node.PollInOrder | sf-node/src/node.rs:66-88 | one turn of the outer loop takes the head of the first transport that has an event, unless a closed empty one comes before it |
| NodePolling.Node.PollNextEvent | sf-node/src/node.rs:63-92 | one poll returns if and only if no transport's accept channel is closed; it logs every queued event transport by transport and in each one's order, leaving all queues empty, or else those up to the first closed transport |
| NodePolling.DueUpToClosed | sf-node/src/node.rs:66-88 | what is due before a closed transport stops the poll is all that is queued at the transports up to and including it |

## Left out

- axum, hyper, QUIC, TLS, the fetch of certificate fingerprints and real sockets: frames arrive, and writes and endpoints succeed or fail.
- JSON: a text frame carries a request or does not parse; serde_json is taken to round-trip.
- unsigned-varint: its encoding of one byte is taken as given, and decoding is not claimed to accept only shortest forms.
- Browser internals, SDP text, ICE gathering, data channels and the calls into JavaScript.
- Glare and renegotiation: what a browser does after an illegal call is not decided by this code.
- Candidate delivery: a candidate may be lost on the way, or rejected when it comes early; what is inside one is not modelled.
- End-to-end message order: each send is its own spawned send, and only the order within a channel is kept.
- The connection loop and the spawned sends are steps of a machine on values rather than methods, since they interleave; listing the registry for a broadcast is one step of it.
- `message_broadcast`, `message_forwarded` and the counter of received messages are in the object `AppState` or nowhere, not in the machine.
- Weak memory ordering: every atomic operation is one sequentially consistent step.
- f64 rounding, NaN or infinite increments of counters, NaN bucket bounds, and the wrap-around of 64-bit counts.
- Gauges of the metrics registry: like counters, without the log.
- CounterRegistry and HistogramRegistry: the maps of one registry are modelled as two classes, since no modelled method touches both.
- ClientUrlNamesClient: hosts without '?' and '#', as section 3.2 of RFC 3986 has them.
- KeyFor: one order of labels that share a key, where the unstable sort may take any; `Labels.KeyIsDetermined` says when that matters.
- `gather_metrics_string`: prints counts slot by slot and is not claimed to follow the Prometheus format.
- `poll_write` and closing of streams: their meaning is inside the web_transport library.
- PollNextEvent: the map of transports is a list in the order in which it is iterated over, which does not change during a poll; a poll that does not return is an outcome, after the events logged before it goes round.
- `PeerID::random` and the choice of the sender of system events: a parameter.
- `sf-viz`, `sf-wt`, the docker proxy, argument parsing, builders, logging and pages.
