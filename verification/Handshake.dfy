/** The offer/answer handshake of two clients over the signalling server (sf-wasm: peer.rs, client.rs,
    websocket.rs). The server may deliver in any order and may lose messages, but delivers none twice. */
module Handshake {
  import opened Bytes

  datatype Side = Caller | Callee

  function Other(side: Side): Side { if side == Caller then Callee else Caller }

  /** A session description; an answer carries the offer it was created for. */
  datatype Description = Offer(sdp: nat) | Answer(sdp: nat, offer: nat)

  datatype Signaling = Stable | HaveLocalOffer | HaveRemoteOffer

  datatype Call =
    | CreateOffer
    | CreateAnswer
    | SetLocal(d: Description)
    | SetRemote(d: Description)
    | AddCandidate

  /** The browser's peer connection, as section 3.2 of RFC 8829 defines its states, with the number of times the
      remote description has been set and of candidates it has been given. */
  datatype Browser = Browser(signaling: Signaling, local: Option<Description>, remote: Option<Description>,
                             remoteSets: nat, candidates: nat)
  {
    /** Whether the signalling state machine allows the call. */
    predicate Allows(call: Call) {
      match call
      case CreateOffer => signaling == Stable || signaling == HaveLocalOffer
      case CreateAnswer => signaling == HaveRemoteOffer
      case SetLocal(Offer(_)) => signaling == Stable || signaling == HaveLocalOffer
      case SetLocal(Answer(_, _)) => signaling == HaveRemoteOffer
      case SetRemote(Offer(_)) => signaling == Stable || signaling == HaveRemoteOffer
      case SetRemote(Answer(_, _)) => signaling == HaveLocalOffer
      case AddCandidate => remote.Some?
    }

    /** An illegal call is refused and changes nothing. */
    function Do(call: Call): Browser {
      if !Allows(call) then this
      else match call
        case SetLocal(d) => this.(local := Some(d), signaling := if d.Offer? then HaveLocalOffer else Stable)
        case SetRemote(d) =>
          this.(remote := Some(d), signaling := if d.Offer? then HaveRemoteOffer else Stable,
                remoteSets := remoteSets + 1)
        case AddCandidate => this.(candidates := candidates + 1)
        case _ => this
    }
  }

  const FRESH: Browser := Browser(Stable, None, None, 0, 0)

  /** Where `connect_to_peer` and `make_offer` are between awaits. */
  datatype Offering =
    | NotCalled
    | OpeningChannel
    | CreatingOffer
    | SettingOffer(d: Description)
    | SendingOffer(d: Description)
    | Finished

  /** Where the reader loop is: it handles one message at a time. */
  datatype Reading =
    | Waiting
    | Handling(d: Description)
    | SettingRemote(d: Description)
    | CreatingAnswer
    | SettingAnswer(d: Description)
    | SendingAnswer(d: Description)

  /** One client and its peer object for the other side, if it has one. */
  datatype Client = Client(peer: Option<Browser>, offering: Offering, reading: Reading)

  datatype Message = Message(to: Side, d: Description)

  /** `illegal` records whether any browser call was ever refused by the signalling state machine. */
  datatype State = State(caller: Client, callee: Client, descriptions: seq<Message>,
                         candidates: multiset<Side>, illegal: bool)

  const INIT: State :=
    State(Client(None, NotCalled, Waiting), Client(None, NotCalled, Waiting), [], multiset{}, false)

  /** `connect_to_peer` and `make_offer`, one await at a time; any of them may fail. */
  datatype OfferStep = Start | OpenChannel | MakeOffer(sdp: nat) | SetOffer | SendOffer | AbandonOffer

  /** `handle_offer` on the description at hand, one await at a time; any of them may fail. */
  datatype ReadStep = CheckRemote | ApplyRemote | MakeAnswer(sdp: nat) | SetAnswer | SendAnswer | AbandonMessage

  datatype CandidateStep = Gather | ReceiveCandidate | LoseCandidate

  datatype Step =
    | Make(side: Side, offer: OfferStep)
    | Receive(i: nat)
    | Handle(side: Side, read: ReadStep)
    | Lose(i: nat)
    | Candidate(side: Side, candidate: CandidateStep)

  function At(s: State, side: Side): Client { if side == Caller then s.caller else s.callee }

  function Put(s: State, side: Side, client: Client): State {
    if side == Caller then s.(caller := client) else s.(callee := client)
  }

  predicate CanMake(client: Client, step: OfferStep) {
    match step
    case Start => client.offering == NotCalled
    case OpenChannel => client.offering == OpeningChannel
    case MakeOffer(_) => client.offering == CreatingOffer && client.peer.Some?
    case SetOffer => client.offering.SettingOffer? && client.peer.Some?
    case SendOffer => client.offering.SendingOffer?
    case AbandonOffer => client.offering != NotCalled && client.offering != Finished
  }

  predicate CanHandle(client: Client, step: ReadStep) {
    match step
    case CheckRemote => client.reading.Handling? && client.peer.Some?
    case ApplyRemote => client.reading.SettingRemote? && client.peer.Some?
    case MakeAnswer(_) => client.reading == CreatingAnswer && client.peer.Some?
    case SetAnswer => client.reading.SettingAnswer? && client.peer.Some?
    case SendAnswer => client.reading.SendingAnswer?
    case AbandonMessage => client.reading != Waiting
  }

  predicate Enabled(s: State, step: Step) {
    match step
    case Make(x, o) => CanMake(At(s, x), o)
    case Receive(i) => i < |s.descriptions| && At(s, s.descriptions[i].to).reading == Waiting
    case Handle(x, r) => CanHandle(At(s, x), r)
    case Lose(i) => i < |s.descriptions|
    case Candidate(x, Gather) => At(s, x).peer.Some? && At(s, x).peer.value.local.Some?
    case Candidate(x, ReceiveCandidate) => x in s.candidates && At(s, x).reading == Waiting
    case Candidate(x, LoseCandidate) => x in s.candidates
  }

  function GetOrCreate(client: Client): Client {
    client.(peer := Some(if client.peer.Some? then client.peer.value else FRESH))
  }

  /** A browser call by `side`, which then goes on as `next`; a refused call is recorded. */
  function Calls(s: State, side: Side, call: Call, next: Client): State
    requires At(s, side).peer.Some?
  {
    var browser := At(s, side).peer.value;
    Put(s, side, next.(peer := Some(browser.Do(call)))).(illegal := s.illegal || !browser.Allows(call))
  }

  /** After the remote description is in place, only an offer is answered. */
  function Answered(d: Description): Reading { if d.Offer? then CreatingAnswer else Waiting }

  function Post(s: State, m: Message): State { s.(descriptions := s.descriptions + [m]) }

  function Without(ms: seq<Message>, i: nat): seq<Message>
    requires i < |ms|
  {
    ms[..i] + ms[i + 1..]
  }

  function AnswerTo(browser: Browser, sdp: nat): Description {
    Answer(sdp, match browser.remote case Some(d) => d.sdp case None => 0)
  }

  function DoMake(s: State, x: Side, step: OfferStep): State
    requires CanMake(At(s, x), step)
  {
    var client := At(s, x);
    match step
    case Start => Put(s, x, GetOrCreate(client).(offering := OpeningChannel))
    case OpenChannel => Put(s, x, client.(offering := CreatingOffer))
    case MakeOffer(sdp) => Calls(s, x, CreateOffer, client.(offering := SettingOffer(Offer(sdp))))
    case SetOffer => Calls(s, x, SetLocal(client.offering.d), client.(offering := SendingOffer(client.offering.d)))
    case SendOffer => Post(Put(s, x, client.(offering := Finished)), Message(Other(x), client.offering.d))
    case AbandonOffer => Put(s, x, client.(offering := Finished))
  }

  function DoReceive(s: State, i: nat): State
    requires i < |s.descriptions|
  {
    var m := s.descriptions[i];
    Put(s, m.to, GetOrCreate(At(s, m.to)).(reading := Handling(m.d))).(descriptions := Without(s.descriptions, i))
  }

  function DoHandle(s: State, x: Side, step: ReadStep): State
    requires CanHandle(At(s, x), step)
  {
    var client := At(s, x);
    match step
    case CheckRemote =>
      var d := client.reading.d;
      Put(s, x, client.(reading := if client.peer.value.remote.None? then SettingRemote(d) else Answered(d)))
    case ApplyRemote =>
      Calls(s, x, SetRemote(client.reading.d), client.(reading := Answered(client.reading.d)))
    case MakeAnswer(sdp) =>
      Calls(s, x, CreateAnswer, client.(reading := SettingAnswer(AnswerTo(client.peer.value, sdp))))
    case SetAnswer => Calls(s, x, SetLocal(client.reading.d), client.(reading := SendingAnswer(client.reading.d)))
    case SendAnswer => Post(Put(s, x, client.(reading := Waiting)), Message(Other(x), client.reading.d))
    case AbandonMessage => Put(s, x, client.(reading := Waiting))
  }

  predicate Ready(client: Client) { client.peer.Some? && client.peer.value.remote.Some? }

  /** A candidate for a peer that does not exist or has no remote description is an error and is dropped. */
  function Received(s: State, x: Side): State {
    if Ready(At(s, x)) then Calls(s, x, AddCandidate, At(s, x)) else s
  }

  function DoCandidate(s: State, x: Side, step: CandidateStep): State {
    match step
    case Gather => s.(candidates := s.candidates + multiset{Other(x)})
    case ReceiveCandidate => Received(s.(candidates := s.candidates - multiset{x}), x)
    case LoseCandidate => s.(candidates := s.candidates - multiset{x})
  }

  function Apply(s: State, step: Step): State
    requires Enabled(s, step)
  {
    match step
    case Make(x, o) => DoMake(s, x, o)
    case Receive(i) => DoReceive(s, i)
    case Handle(x, r) => DoHandle(s, x, r)
    case Lose(i) => s.(descriptions := Without(s.descriptions, i))
    case Candidate(x, c) => DoCandidate(s, x, c)
  }

  function After(run: seq<Step>): Option<State> {
    if run == [] then Some(INIT)
    else
      var before := After(run[..|run| - 1]);
      if before.Some? && Enabled(before.value, run[|run| - 1]) then Some(Apply(before.value, run[|run| - 1]))
      else None
  }

  // ----- the invariant -----

  /** How many places a description is being made, carried or handled. */
  function Activity(s: State): nat {
    (if s.caller.offering == Finished then 0 else 1) + |s.descriptions|
    + (if s.caller.reading == Waiting then 0 else 1) + (if s.callee.reading == Waiting then 0 else 1)
  }

  function Pc(s: State, x: Side): Browser { if At(s, x).peer.Some? then At(s, x).peer.value else FRESH }

  function CallerPc(s: State): Browser { Pc(s, Caller) }

  function CalleePc(s: State): Browser { Pc(s, Callee) }

  /** The caller: untouched, offered, or answered by what the callee made its local description. */
  ghost predicate CallerOk(s: State) {
    var a, b := CallerPc(s), CalleePc(s);
    || a == FRESH
    || (a.signaling == HaveLocalOffer && a.local.Some? && a.local.value.Offer? && a.remote.None? && a.remoteSets == 0)
    || (a.signaling == Stable && a.local.Some? && a.local.value.Offer? && a.remoteSets == 1
        && a.remote.Some? && a.remote == b.local)
  }

  /** The callee: untouched, holding the caller's offer, or having answered it. */
  ghost predicate CalleeOk(s: State) {
    var a, b := CallerPc(s), CalleePc(s);
    || b == FRESH
    || (a.local.Some? && b.remote == a.local && b.remoteSets == 1
        && ((b.signaling == HaveRemoteOffer && b.local.None?)
            || (b.signaling == Stable && b.local.Some? && b.local.value.Answer?
                && b.local.value.offer == a.local.value.sdp)))
  }

  /** The offer on its way is the caller's, and the callee is untouched. */
  ghost predicate OfferPending(s: State, d: Description) {
    d.Offer? && CallerPc(s).local == Some(d) && CallerPc(s).remote.None? && CalleePc(s) == FRESH
  }

  /** The answer on its way is the callee's, and the caller still waits for it. */
  ghost predicate AnswerPending(s: State, d: Description) {
    d.Answer? && CalleePc(s).local == Some(d) && CallerPc(s).signaling == HaveLocalOffer
  }

  ghost predicate OfferingOk(s: State) {
    match s.caller.offering
    case NotCalled => CallerPc(s) == CalleePc(s) == FRESH
    case OpeningChannel => s.caller.peer.Some? && CallerPc(s) == CalleePc(s) == FRESH
    case CreatingOffer => s.caller.peer.Some? && CallerPc(s) == CalleePc(s) == FRESH
    case SettingOffer(d) => s.caller.peer.Some? && CallerPc(s) == CalleePc(s) == FRESH && d.Offer?
    case SendingOffer(d) => OfferPending(s, d)
    case Finished => true
  }

  ghost predicate CalleeReadingOk(s: State) {
    var b := CalleePc(s);
    (s.callee.reading != Waiting ==> s.callee.peer.Some?) &&
    match s.callee.reading
    case Waiting => true
    case Handling(d) => OfferPending(s, d)
    case SettingRemote(d) => OfferPending(s, d)
    case CreatingAnswer => b.signaling == HaveRemoteOffer && CallerPc(s).signaling == HaveLocalOffer
    case SettingAnswer(d) =>
      b.signaling == HaveRemoteOffer && CallerPc(s).signaling == HaveLocalOffer
      && d.Answer? && CallerPc(s).local.Some? && d.offer == CallerPc(s).local.value.sdp
    case SendingAnswer(d) => AnswerPending(s, d)
  }

  ghost predicate CallerReadingOk(s: State) {
    match s.caller.reading
    case Waiting => true
    case Handling(d) => s.caller.peer.Some? && AnswerPending(s, d)
    case SettingRemote(d) => s.caller.peer.Some? && AnswerPending(s, d)
    case _ => false
  }

  ghost predicate InFlightOk(s: State) {
    forall i :: 0 <= i < |s.descriptions| ==>
      var m := s.descriptions[i];
      if m.to == Callee then OfferPending(s, m.d) else AnswerPending(s, m.d)
  }

  ghost predicate Inv(s: State) {
    && !s.illegal && s.callee.offering == NotCalled && Activity(s) <= 1
    && CallerOk(s) && CalleeOk(s) && OfferingOk(s) && CalleeReadingOk(s) && CallerReadingOk(s) && InFlightOk(s)
  }

  lemma MakeKeepsInv(s: State, step: OfferStep)
    requires Inv(s) && CanMake(s.caller, step)
    ensures Inv(DoMake(s, Caller, step))
  {
  }

  lemma ReceiveKeepsInv(s: State, i: nat)
    requires Inv(s) && i < |s.descriptions| && At(s, s.descriptions[i].to).reading == Waiting
    ensures Inv(DoReceive(s, i))
  {
  }

  lemma CalleeHandleKeepsInv(s: State, step: ReadStep)
    requires Inv(s) && CanHandle(s.callee, step)
    ensures Inv(DoHandle(s, Callee, step))
  {
  }

  lemma CallerHandleKeepsInv(s: State, step: ReadStep)
    requires Inv(s) && CanHandle(s.caller, step)
    ensures Inv(DoHandle(s, Caller, step))
  {
  }

  lemma CandidateKeepsInv(s: State, x: Side, step: CandidateStep)
    requires Inv(s) && Enabled(s, Candidate(x, step))
    ensures Inv(DoCandidate(s, x, step))
  {
  }

  lemma LoseKeepsInv(s: State, i: nat)
    requires Inv(s) && i < |s.descriptions|
    ensures Inv(s.(descriptions := Without(s.descriptions, i)))
  {
  }

  lemma StepKeepsInv(s: State, step: Step)
    requires Inv(s) && Enabled(s, step) && (step.Make? ==> step.side == Caller)
    ensures Inv(Apply(s, step))
  {
    match step
    case Make(x, o) => MakeKeepsInv(s, o);
    case Receive(i) => ReceiveKeepsInv(s, i);
    case Handle(x, r) => if x == Caller { CallerHandleKeepsInv(s, r); } else { CalleeHandleKeepsInv(s, r); }
    case Lose(i) => LoseKeepsInv(s, i);
    case Candidate(x, c) => CandidateKeepsInv(s, x, c);
  }

  // ----- the two sides are alike -----

  function Mirrored(m: Message): Message { m.(to := Other(m.to)) }

  function MirrorMessages(ms: seq<Message>): seq<Message> {
    seq(|ms|, i requires 0 <= i < |ms| => Mirrored(ms[i]))
  }

  function MirrorSides(m: multiset<Side>): multiset<Side> {
    multiset{}[Caller := m[Callee]][Callee := m[Caller]]
  }

  /** The same state with the sides exchanged. */
  function Mirror(s: State): State {
    State(s.callee, s.caller, MirrorMessages(s.descriptions), MirrorSides(s.candidates), s.illegal)
  }

  function MirrorStep(step: Step): Step {
    match step
    case Make(x, o) => Make(Other(x), o)
    case Handle(x, r) => Handle(Other(x), r)
    case Candidate(x, c) => Candidate(Other(x), c)
    case _ => step
  }

  function MirrorRun(run: seq<Step>): seq<Step> {
    if run == [] then [] else MirrorRun(run[..|run| - 1]) + [MirrorStep(run[|run| - 1])]
  }

  lemma MirrorPosts(ms: seq<Message>, m: Message)
    ensures MirrorMessages(ms + [m]) == MirrorMessages(ms) + [Mirrored(m)]
  {
  }

  lemma MirrorTakes(ms: seq<Message>, i: nat)
    requires i < |ms|
    ensures MirrorMessages(Without(ms, i)) == Without(MirrorMessages(ms), i)
  {
  }

  lemma MirrorMoves(m: multiset<Side>, x: Side)
    ensures MirrorSides(m + multiset{x}) == MirrorSides(m) + multiset{Other(x)}
    ensures x in m ==> MirrorSides(m - multiset{x}) == MirrorSides(m) - multiset{Other(x)}
    ensures x in m <==> Other(x) in MirrorSides(m)
  {
  }

  lemma MirrorMake(s: State, x: Side, step: OfferStep)
    requires CanMake(At(s, x), step)
    ensures CanMake(At(Mirror(s), Other(x)), step) && DoMake(Mirror(s), Other(x), step) == Mirror(DoMake(s, x, step))
  {
    if step == SendOffer {
      MirrorPosts(s.descriptions, Message(Other(x), At(s, x).offering.d));
    }
  }

  lemma MirrorHandle(s: State, x: Side, step: ReadStep)
    requires CanHandle(At(s, x), step)
    ensures CanHandle(At(Mirror(s), Other(x)), step)
    ensures DoHandle(Mirror(s), Other(x), step) == Mirror(DoHandle(s, x, step))
  {
    if step == SendAnswer {
      MirrorPosts(s.descriptions, Message(Other(x), At(s, x).reading.d));
    }
  }

  lemma MirrorGather(s: State, x: Side)
    ensures DoCandidate(Mirror(s), Other(x), Gather) == Mirror(DoCandidate(s, x, Gather))
  {
    MirrorMoves(s.candidates, Other(x));
  }

  lemma MirrorDrop(s: State, x: Side)
    requires x in s.candidates
    ensures Mirror(s.(candidates := s.candidates - multiset{x})) ==
            Mirror(s).(candidates := Mirror(s).candidates - multiset{Other(x)})
  {
    MirrorMoves(s.candidates, x);
  }

  lemma MirrorCall(s: State, x: Side, call: Call, next: Client)
    requires At(s, x).peer.Some?
    ensures Calls(Mirror(s), Other(x), call, next) == Mirror(Calls(s, x, call, next))
  {
  }

  lemma MirrorReceived(s: State, x: Side)
    ensures Received(Mirror(s), Other(x)) == Mirror(Received(s, x))
  {
    if Ready(At(s, x)) {
      MirrorCall(s, x, AddCandidate, At(s, x));
    }
  }

  lemma MirrorReceive(s: State, x: Side)
    requires x in s.candidates
    ensures DoCandidate(Mirror(s), Other(x), ReceiveCandidate) == Mirror(DoCandidate(s, x, ReceiveCandidate))
  {
    MirrorDrop(s, x);
    MirrorReceived(s.(candidates := s.candidates - multiset{x}), x);
  }

  lemma MirrorCandidate(s: State, x: Side, step: CandidateStep)
    requires Enabled(s, Candidate(x, step))
    ensures Enabled(Mirror(s), Candidate(Other(x), step))
    ensures DoCandidate(Mirror(s), Other(x), step) == Mirror(DoCandidate(s, x, step))
  {
    MirrorMoves(s.candidates, x);
    match step
    case Gather => MirrorGather(s, x);
    case ReceiveCandidate => MirrorReceive(s, x);
    case LoseCandidate => MirrorDrop(s, x);
  }

  /** Exchanging the sides before a step or after it is the same. */
  lemma MirrorApplies(s: State, step: Step)
    requires Enabled(s, step)
    ensures Enabled(Mirror(s), MirrorStep(step)) && Apply(Mirror(s), MirrorStep(step)) == Mirror(Apply(s, step))
  {
    match step
    case Make(x, o) => MirrorMake(s, x, o);
    case Receive(i) => MirrorTakes(s.descriptions, i);
    case Handle(x, r) => MirrorHandle(s, x, r);
    case Lose(i) => MirrorTakes(s.descriptions, i);
    case Candidate(x, c) => MirrorCandidate(s, x, c);
  }

  lemma {:induction false} MirrorRuns(run: seq<Step>)
    requires After(run).Some?
    ensures After(MirrorRun(run)) == Some(Mirror(After(run).value))
  {
    if run == [] {
      assert MirrorSides(multiset{}) == multiset{} && MirrorMessages([]) == [];
    } else {
      var prefix := run[..|run| - 1];
      MirrorRuns(prefix);
      MirrorApplies(After(prefix).value, run[|run| - 1]);
      Extend(MirrorRun(prefix), Mirror(After(prefix).value), MirrorStep(run[|run| - 1]));
    }
  }

  lemma Extend(run: seq<Step>, s: State, step: Step)
    requires After(run) == Some(s) && Enabled(s, step)
    ensures After(run + [step]) == Some(Apply(s, step))
  {
    assert (run + [step])[..|run + [step]| - 1] == run;
  }

  // ----- every run in which one side offers -----

  ghost predicate OffersOnlyBy(run: seq<Step>, sides: set<Side>) {
    forall k :: 0 <= k < |run| && run[k].Make? ==> run[k].side in sides
  }

  lemma {:induction false} MirrorOffers(run: seq<Step>)
    requires OffersOnlyBy(run, {Callee})
    ensures OffersOnlyBy(MirrorRun(run), {Caller})
  {
    if run != [] {
      MirrorOffers(run[..|run| - 1]);
    }
  }

  lemma {:induction false} RunKeepsInv(run: seq<Step>)
    requires After(run).Some? && OffersOnlyBy(run, {Caller})
    ensures Inv(After(run).value)
  {
    if run != [] {
      RunKeepsInv(run[..|run| - 1]);
      StepKeepsInv(After(run[..|run| - 1]).value, run[|run| - 1]);
    }
  }

  /** Whichever side it is that offers, whatever the order of delivery and whatever is lost or fails: no browser call
      is ever illegal, so that no candidate is applied before the remote description; each side sets its remote
      description at most once, the callee to the caller's offer and the caller to the callee's answer to that offer;
      and once both have done so both are stable again. */
  lemma NoGlare(run: seq<Step>, x: Side)
    requires After(run).Some? && OffersOnlyBy(run, {x})
    ensures var s := After(run).value;
            var a, b := Pc(s, x), Pc(s, Other(x));
            && !s.illegal
            && a.remoteSets <= 1 && b.remoteSets <= 1
            && (b.remote.Some? ==> b.remote.value.Offer? && a.local == b.remote)
            && (a.remote.Some? ==> a.remote.value.Answer? && b.local == a.remote
                                   && b.remote.Some? && a.remote.value.offer == b.remote.value.sdp)
            && (a.remote.Some? && b.remote.Some? ==> a.signaling == b.signaling == Stable)
  {
    if x == Caller {
      RunKeepsInv(run);
    } else {
      MirrorRuns(run);
      MirrorOffers(run);
      RunKeepsInv(MirrorRun(run));
    }
  }

  /** With these sides free to offer, and no others, every browser call of every run is legal exactly when they are no
      more than one. */
  lemma LegalIfOneOffers(sides: set<Side>)
    ensures (forall run :: After(run).Some? && OffersOnlyBy(run, sides) ==> !After(run).value.illegal) <==>
            |sides| <= 1
  {
    if Caller in sides && Callee in sides {
      SubsetIsNoLarger({Caller, Callee}, sides);
      var run := CrossingOffers();
      forall k | 0 <= k < |run| && run[k].Make? ensures run[k].side in sides {
        assert run[k].side == Caller || run[k].side == Callee;
      }
    } else {
      var x := if Caller in sides then Caller else Callee;
      forall y | y in sides ensures y == x {
        assert y == Caller || y == Callee;
      }
      SubsetIsNoLarger(sides, {x});
      forall run | After(run).Some? && OffersOnlyBy(run, sides) ensures !After(run).value.illegal {
        NoGlare(run, x);
      }
    }
  }

  lemma SubsetIsNoLarger(a: set<Side>, b: set<Side>)
    requires a <= b
    ensures |a| <= |b|
  {
    assert b == a + (b - a);
  }

  // ----- candidates -----

  function Count(b: bool): nat { if b then 1 else 0 }

  /** The candidates that the other side of `y` gathered, so for `y`. */
  function Gathered(run: seq<Step>, y: Side): nat {
    if run == [] then 0
    else Gathered(run[..|run| - 1], y) + Count(run[|run| - 1] == Candidate(Other(y), Gather))
  }

  /** The candidates that `y` received. */
  function Arrived(run: seq<Step>, y: Side): nat {
    if run == [] then 0
    else Arrived(run[..|run| - 1], y) + Count(run[|run| - 1] == Candidate(y, ReceiveCandidate))
  }

  /** The candidates for `y` that were lost. */
  function Lost(run: seq<Step>, y: Side): nat {
    if run == [] then 0 else Lost(run[..|run| - 1], y) + Count(run[|run| - 1] == Candidate(y, LoseCandidate))
  }

  /** The candidates that `y` received when it had a peer with a remote description. */
  ghost function ArrivedInTime(run: seq<Step>, y: Side): nat
    requires After(run).Some?
  {
    if run == [] then 0
    else
      var prefix := run[..|run| - 1];
      var browser := Pc(After(prefix).value, y);
      ArrivedInTime(prefix, y)
      + Count(run[|run| - 1] == Candidate(y, ReceiveCandidate) && browser.remote.Some?)
  }

  lemma MakeGathersNothing(s: State, x: Side, step: OfferStep, y: Side)
    requires CanMake(At(s, x), step)
    ensures var s' := DoMake(s, x, step);
            s'.candidates == s.candidates && Pc(s', y).candidates == Pc(s, y).candidates
  {
  }

  lemma HandleGathersNothing(s: State, x: Side, step: ReadStep, y: Side)
    requires CanHandle(At(s, x), step)
    ensures var s' := DoHandle(s, x, step);
            s'.candidates == s.candidates && Pc(s', y).candidates == Pc(s, y).candidates
  {
  }

  lemma ReceivedIsGiven(s: State, x: Side, y: Side)
    ensures Received(s, x).candidates == s.candidates
    ensures Pc(Received(s, x), y).candidates == Pc(s, y).candidates + Count(x == y && Pc(s, y).remote.Some?)
  {
  }

  lemma CandidateIsFor(s: State, x: Side, step: CandidateStep, y: Side)
    requires Enabled(s, Candidate(x, step))
    ensures var s' := DoCandidate(s, x, step);
            s'.candidates[y] + Count(x == y && step != Gather) == s.candidates[y] + Count(x == Other(y) && step == Gather)
    ensures Pc(DoCandidate(s, x, step), y).candidates ==
            Pc(s, y).candidates + Count(x == y && step == ReceiveCandidate && Pc(s, y).remote.Some?)
  {
    if step == ReceiveCandidate {
      ReceivedIsGiven(s.(candidates := s.candidates - multiset{x}), x, y);
    }
  }

  lemma StepGathers(s: State, step: Step, y: Side)
    requires Enabled(s, step) && !step.Candidate?
    ensures Apply(s, step).candidates == s.candidates && Pc(Apply(s, step), y).candidates == Pc(s, y).candidates
  {
    match step
    case Make(x, o) => MakeGathersNothing(s, x, o, y);
    case Receive(i) =>
    case Handle(x, r) => HandleGathersNothing(s, x, r, y);
    case Lose(i) =>
  }

  /** Every candidate is for the side that did not gather it: those on their way to a side, received by it and lost are
      exactly those the other side gathered. */
  lemma {:induction false} CandidatesAccountedFor(run: seq<Step>, y: Side)
    requires After(run).Some?
    ensures After(run).value.candidates[y] + Arrived(run, y) + Lost(run, y) == Gathered(run, y)
  {
    if run != [] {
      var s, last := After(run[..|run| - 1]).value, run[|run| - 1];
      CandidatesAccountedFor(run[..|run| - 1], y);
      if last.Candidate? {
        CandidateIsFor(s, last.side, last.candidate, y);
      } else {
        StepGathers(s, last, y);
      }
    }
  }

  /** The browser of a side has been given exactly the candidates that came when its remote description was set. */
  lemma {:induction false} CandidatesAreGiven(run: seq<Step>, y: Side)
    requires After(run).Some?
    ensures Pc(After(run).value, y).candidates == ArrivedInTime(run, y)
  {
    if run != [] {
      var s, last := After(run[..|run| - 1]).value, run[|run| - 1];
      CandidatesAreGiven(run[..|run| - 1], y);
      if last.Candidate? {
        CandidateIsFor(s, last.side, last.candidate, y);
      } else {
        StepGathers(s, last, y);
      }
    }
  }

  // ----- the exchange of descriptions ends -----

  function OfferingLeft(o: Offering): nat {
    match o
    case NotCalled => 16
    case OpeningChannel => 15
    case CreatingOffer => 14
    case SettingOffer(_) => 13
    case SendingOffer(_) => 12
    case Finished => 0
  }

  function InFlightLeft(d: Description): nat { if d.Offer? then 11 else 5 }

  function ReadingLeft(r: Reading): nat {
    match r
    case Waiting => 0
    case Handling(d) => if d.Offer? then 10 else 4
    case SettingRemote(d) => if d.Offer? then 9 else 3
    case CreatingAnswer => 8
    case SettingAnswer(_) => 7
    case SendingAnswer(_) => 6
  }

  function CarriedLeft(ms: seq<Message>): nat {
    if ms == [] then 0 else CarriedLeft(ms[..|ms| - 1]) + InFlightLeft(ms[|ms| - 1].d)
  }

  /** What is left to do about descriptions. */
  function Effort(s: State): nat {
    OfferingLeft(s.caller.offering) + OfferingLeft(s.callee.offering)
    + ReadingLeft(s.caller.reading) + ReadingLeft(s.callee.reading) + CarriedLeft(s.descriptions)
  }

  lemma {:induction false} CarriedWithout(ms: seq<Message>, i: nat)
    requires i < |ms|
    ensures CarriedLeft(Without(ms, i)) + InFlightLeft(ms[i].d) == CarriedLeft(ms)
  {
    var init := ms[..|ms| - 1];
    if i == |ms| - 1 {
      assert Without(ms, i) == init;
    } else {
      CarriedWithout(init, i);
      assert Without(ms, i)[..|ms| - 2] == Without(init, i);
    }
  }

  /** Descriptions that are sent are offers of `make_offer` and answers of `handle_offer`. */
  predicate Typed(client: Client) {
    && (client.offering.SendingOffer? ==> client.offering.d.Offer?)
    && (client.offering.SettingOffer? ==> client.offering.d.Offer?)
    && (client.reading.SendingAnswer? ==> client.reading.d.Answer?)
    && (client.reading.SettingAnswer? ==> client.reading.d.Answer?)
  }

  predicate WellTyped(s: State) { Typed(s.caller) && Typed(s.callee) }

  lemma MakeCosts(s: State, x: Side, step: OfferStep)
    requires WellTyped(s) && CanMake(At(s, x), step)
    ensures WellTyped(DoMake(s, x, step)) && Effort(DoMake(s, x, step)) < Effort(s)
  {
  }

  lemma HandleCosts(s: State, x: Side, step: ReadStep)
    requires WellTyped(s) && CanHandle(At(s, x), step)
    ensures WellTyped(DoHandle(s, x, step)) && Effort(DoHandle(s, x, step)) < Effort(s)
  {
  }

  lemma CandidateCostsNothing(s: State, x: Side, step: CandidateStep)
    requires WellTyped(s) && Enabled(s, Candidate(x, step))
    ensures WellTyped(DoCandidate(s, x, step)) && Effort(DoCandidate(s, x, step)) == Effort(s)
  {
  }

  lemma StepCosts(s: State, step: Step)
    requires WellTyped(s) && Enabled(s, step)
    ensures WellTyped(Apply(s, step))
    ensures Effort(Apply(s, step)) + (if step.Candidate? then 0 else 1) <= Effort(s)
  {
    match step
    case Make(x, o) => MakeCosts(s, x, o);
    case Receive(i) => CarriedWithout(s.descriptions, i);
    case Handle(x, r) => HandleCosts(s, x, r);
    case Lose(i) => CarriedWithout(s.descriptions, i);
    case Candidate(x, c) => CandidateCostsNothing(s, x, c);
  }

  function DescriptionSteps(run: seq<Step>): nat {
    if run == [] then 0
    else DescriptionSteps(run[..|run| - 1]) + if run[|run| - 1].Candidate? then 0 else 1
  }

  /** Whoever offers, a run takes at most 32 steps about descriptions: an answer sets off no further one. */
  lemma {:induction false} DescriptionsEnd(run: seq<Step>)
    requires After(run).Some?
    ensures WellTyped(After(run).value)
    ensures DescriptionSteps(run) + Effort(After(run).value) <= 32
  {
    if run != [] {
      DescriptionsEnd(run[..|run| - 1]);
      StepCosts(After(run[..|run| - 1]).value, run[|run| - 1]);
    }
  }

  // ----- one side must offer -----

  /** One side makes its offer, up to sending it. */
  lemma Offers(run: seq<Step>, s: State, x: Side) returns (run': seq<Step>)
    requires After(run) == Some(s) && At(s, x) == Client(None, NotCalled, Waiting)
    ensures var offered := Browser(HaveLocalOffer, Some(Offer(1)), None, 0, 0);
            After(run') == Some(Put(s, x, Client(Some(offered), SendingOffer(Offer(1)), Waiting)))
  {
    Extend(run, s, Make(x, Start));
    var s1, r1 := Apply(s, Make(x, Start)), run + [Make(x, Start)];
    Extend(r1, s1, Make(x, OpenChannel));
    var s2, r2 := Apply(s1, Make(x, OpenChannel)), r1 + [Make(x, OpenChannel)];
    Extend(r2, s2, Make(x, MakeOffer(1)));
    var s3, r3 := Apply(s2, Make(x, MakeOffer(1))), r2 + [Make(x, MakeOffer(1))];
    Extend(r3, s3, Make(x, SetOffer));
    run' := r3 + [Make(x, SetOffer)];
  }

  const OFFERED: Client :=
    Client(Some(Browser(HaveLocalOffer, Some(Offer(1)), None, 0, 0)), SendingOffer(Offer(1)), Waiting)

  const OFFER_SENT: Client := OFFERED.(offering := Finished)

  lemma CalleeSends(run: seq<Step>) returns (run': seq<Step>)
    requires After(run) == Some(State(OFFERED, OFFERED, [], multiset{}, false))
    ensures After(run') == Some(State(OFFERED, OFFER_SENT, [Message(Caller, Offer(1))], multiset{}, false))
  {
    var s := After(run).value;
    Extend(run, s, Make(Callee, SendOffer));
    run' := run + [Make(Callee, SendOffer)];
    assert DoMake(s, Callee, SendOffer).descriptions == [Message(Caller, Offer(1))];
  }

  lemma CallerReceives(run: seq<Step>) returns (run': seq<Step>)
    requires After(run) == Some(State(OFFERED, OFFER_SENT, [Message(Caller, Offer(1))], multiset{}, false))
    ensures After(run') == Some(State(OFFERED.(reading := Handling(Offer(1))), OFFER_SENT, [], multiset{}, false))
  {
    var s := After(run).value;
    Extend(run, s, Receive(0));
    run' := run + [Receive(0)];
    assert Without(s.descriptions, 0) == [];
  }

  /** The caller has an offer of its own. */
  lemma Collide(run: seq<Step>) returns (run': seq<Step>)
    requires After(run) == Some(State(OFFERED.(reading := Handling(Offer(1))), OFFER_SENT, [], multiset{}, false))
    ensures After(run').Some? && After(run').value.illegal
  {
    var s := After(run).value;
    Extend(run, s, Handle(Caller, CheckRemote));
    var s1, r1 := Apply(s, Handle(Caller, CheckRemote)), run + [Handle(Caller, CheckRemote)];
    Extend(r1, s1, Handle(Caller, ApplyRemote));
    run' := r1 + [Handle(Caller, ApplyRemote)];
  }

  /** When both sides offer, a browser is asked for what section 3.2 of RFC 8829 does not allow. */
  lemma CrossingOffers() returns (run: seq<Step>)
    ensures After(run).Some? && After(run).value.illegal
  {
    run := Offers([], INIT, Caller);
    run := Offers(run, After(run).value, Callee);
    run := CalleeSends(run);
    run := CallerReceives(run);
    run := Collide(run);
  }

  // ----- the handshake can complete -----

  /** A client in the middle of the exchange: what its browser has, and where it is. */
  function Having(signaling: Signaling, local: Option<Description>, remote: Option<Description>, offering: Offering,
                  reading: Reading): Client
  {
    Client(Some(Browser(signaling, local, remote, if remote.Some? then 1 else 0, 0)), offering, reading)
  }

  function Now(caller: Client, callee: Client, descriptions: seq<Message>): State {
    State(caller, callee, descriptions, multiset{}, false)
  }

  lemma OfferReachesCallee() returns (run: seq<Step>)
    ensures After(run) == Some(Now(OFFER_SENT, Having(Stable, None, None, NotCalled, Handling(Offer(1))), []))
  {
    run := Offers([], INIT, Caller);
    var s := After(run).value;
    Extend(run, s, Make(Caller, SendOffer));
    var s1, r1 := Apply(s, Make(Caller, SendOffer)), run + [Make(Caller, SendOffer)];
    assert s1.descriptions == [Message(Callee, Offer(1))];
    assert Without(s1.descriptions, 0) == [];
    Extend(r1, s1, Receive(0));
    run := r1 + [Receive(0)];
  }

  lemma CalleeTakesOffer(run: seq<Step>) returns (run': seq<Step>)
    requires After(run) == Some(Now(OFFER_SENT, Having(Stable, None, None, NotCalled, Handling(Offer(1))), []))
    ensures After(run') == Some(Now(OFFER_SENT, Having(Stable, None, None, NotCalled, SettingRemote(Offer(1))), []))
  {
    var s := After(run).value;
    Extend(run, s, Handle(Callee, CheckRemote));
    run' := run + [Handle(Callee, CheckRemote)];
  }

  lemma CalleeAppliesOffer(run: seq<Step>) returns (run': seq<Step>)
    requires After(run) == Some(Now(OFFER_SENT, Having(Stable, None, None, NotCalled, SettingRemote(Offer(1))), []))
    ensures After(run') == Some(Now(OFFER_SENT, Having(HaveRemoteOffer, None, Some(Offer(1)), NotCalled, CreatingAnswer), []))
  {
    var s := After(run).value;
    var browser := s.callee.peer.value;
    assert browser.Do(SetRemote(Offer(1))) == Browser(HaveRemoteOffer, None, Some(Offer(1)), 1, 0);
    assert DoHandle(s, Callee, ApplyRemote) ==
           Now(OFFER_SENT, Having(HaveRemoteOffer, None, Some(Offer(1)), NotCalled, CreatingAnswer), []);
    Extend(run, s, Handle(Callee, ApplyRemote));
    run' := run + [Handle(Callee, ApplyRemote)];
  }

  lemma CalleeAnswers(run: seq<Step>) returns (run': seq<Step>)
    requires After(run) == Some(Now(OFFER_SENT, Having(HaveRemoteOffer, None, Some(Offer(1)), NotCalled, CreatingAnswer), []))
    ensures After(run') == Some(Now(OFFER_SENT,
                                    Having(Stable, Some(Answer(2, 1)), Some(Offer(1)), NotCalled, SendingAnswer(Answer(2, 1))),
                                    []))
  {
    var s := After(run).value;
    Extend(run, s, Handle(Callee, MakeAnswer(2)));
    var s1, r1 := Apply(s, Handle(Callee, MakeAnswer(2))), run + [Handle(Callee, MakeAnswer(2))];
    Extend(r1, s1, Handle(Callee, SetAnswer));
    run' := r1 + [Handle(Callee, SetAnswer)];
  }

  lemma AnswerReachesCaller(run: seq<Step>) returns (run': seq<Step>)
    requires After(run) == Some(Now(OFFER_SENT,
                                    Having(Stable, Some(Answer(2, 1)), Some(Offer(1)), NotCalled, SendingAnswer(Answer(2, 1))),
                                    []))
    ensures After(run') == Some(Now(OFFER_SENT.(reading := Handling(Answer(2, 1))),
                                    Having(Stable, Some(Answer(2, 1)), Some(Offer(1)), NotCalled, Waiting), []))
  {
    var s := After(run).value;
    Extend(run, s, Handle(Callee, SendAnswer));
    var s1, r1 := Apply(s, Handle(Callee, SendAnswer)), run + [Handle(Callee, SendAnswer)];
    assert s1.descriptions == [Message(Caller, Answer(2, 1))];
    assert Without(s1.descriptions, 0) == [];
    Extend(r1, s1, Receive(0));
    run' := r1 + [Receive(0)];
  }

  /** Nothing keeps the exchange from completing: a run in which the caller's offer and the callee's answer to it end up
      as the descriptions of both. */
  lemma ExchangeCompletes() returns (run: seq<Step>)
    ensures After(run).Some?
    ensures var s := After(run).value;
            var a, b := Pc(s, Caller), Pc(s, Callee);
            && a.signaling == b.signaling == Stable && s.descriptions == []
            && a.local == b.remote == Some(Offer(1)) && b.local == a.remote == Some(Answer(2, 1))
  {
    run := OfferReachesCallee();
    run := CalleeTakesOffer(run);
    run := CalleeAppliesOffer(run);
    run := CalleeAnswers(run);
    run := AnswerReachesCaller(run);
    var s := After(run).value;
    Extend(run, s, Handle(Caller, CheckRemote));
    var s1, r1 := Apply(s, Handle(Caller, CheckRemote)), run + [Handle(Caller, CheckRemote)];
    Extend(r1, s1, Handle(Caller, ApplyRemote));
    run := r1 + [Handle(Caller, ApplyRemote)];
  }
}
