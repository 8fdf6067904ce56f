/** Polling for events: a listener (sf-wt-transport/src/listener/native.rs), its transport (sf-wt-transport/src/lib.rs)
    and the node that drains them all (sf-node/src/node.rs). */
module Polling {
  import opened Bytes
  import opened Multiaddrs

  datatype TransportEvent =
    | NewConnection(address: Multiaddr)
    | ListenAddr(address: Multiaddr)
    | AddrExpired(address: Multiaddr)
    | ListenError(error: nat)

  /** What the interface watcher reports. */
  datatype IfEvent = Up(ip: IpAddr) | Down(ip: IpAddr) | Failure(error: nat)

  /** What one poll of a listener finds, and where. */
  datatype Polled =
    | FromPending(event: TransportEvent)
    | FromWatcher(event: TransportEvent)
    | FromAccept(event: TransportEvent)
    | Nothing

  // ----- a listener -----

  /** The event announced for an interface event, if the families agree. */
  function Announce(bind: SocketAddr, e: IfEvent): Option<TransportEvent> {
    match e
    case Failure(error) => Some(ListenError(error))
    case Up(ip) =>
      (match IpToListenaddr(bind, ip) case Some(addr) => Some(ListenAddr(addr)) case None => None)
    case Down(ip) =>
      (match IpToListenaddr(bind, ip) case Some(addr) => Some(AddrExpired(addr)) case None => None)
  }

  /** The announcements of a list of interface events, in order. */
  function Announced(bind: SocketAddr, events: seq<IfEvent>): seq<TransportEvent> {
    if events == [] then []
    else
      (match Announce(bind, events[0]) case Some(e) => [e] case None => []) + Announced(bind, events[1..])
  }

  /** An interface event of a family the listener is not bound to. */
  predicate Foreign(bind: SocketAddr, e: IfEvent) {
    (e.Up? || e.Down?) && (bind.ip.V4? <==> e.ip.V6?)
  }

  /** The address of the interface, with the listener's port, over QUIC. */
  ghost predicate IsListenAddr(bind: SocketAddr, ip: IpAddr, addr: Multiaddr) {
    |addr| == 4 && Names(addr, SocketAddr(ip, bind.port), None) && addr[2] == QuicV1
  }

  /** What an event that comes from one of the listener's own interfaces, or from the watcher itself, is to say. */
  ghost predicate Tells(bind: SocketAddr, e: IfEvent, event: TransportEvent) {
    match e
    case Up(ip) => event.ListenAddr? && IsListenAddr(bind, ip, event.address)
    case Down(ip) => event.AddrExpired? && IsListenAddr(bind, ip, event.address)
    case Failure(error) => event == ListenError(error)
  }

  lemma AnnounceTells(bind: SocketAddr, e: IfEvent)
    ensures Announce(bind, e).None? <==> Foreign(bind, e)
    ensures Announce(bind, e).Some? ==> Tells(bind, e, Announce(bind, e).value)
  {
    if !e.Failure? {
      ListenaddrIsInjective(bind, e.ip, e.ip);
    }
  }

  /** One thing said, in order, for each event that is not foreign. */
  ghost predicate Follows(bind: SocketAddr, events: seq<IfEvent>, said: seq<TransportEvent>) {
    if events == [] then said == []
    else if Foreign(bind, events[0]) then Follows(bind, events[1..], said)
    else said != [] && Tells(bind, events[0], said[0]) && Follows(bind, events[1..], said[1..])
  }

  lemma {:induction false} AnnouncedFollows(bind: SocketAddr, events: seq<IfEvent>)
    ensures Follows(bind, events, Announced(bind, events))
  {
    if events != [] {
      AnnounceTells(bind, events[0]);
      AnnouncedFollows(bind, events[1..]);
      if !Foreign(bind, events[0]) {
        assert Announced(bind, events)[1..] == Announced(bind, events[1..]);
      } else {
        assert Announced(bind, events) == Announced(bind, events[1..]);
      }
    }
  }

  /** Where the first event is that is not foreign, or the length. */
  function FirstOwn(bind: SocketAddr, events: seq<IfEvent>): (n: nat)
    ensures n <= |events| && (n < |events| ==> !Foreign(bind, events[n]))
    ensures forall i :: 0 <= i < n ==> Foreign(bind, events[i])
  {
    if events == [] || !Foreign(bind, events[0]) then 0 else 1 + FirstOwn(bind, events[1..])
  }

  lemma {:induction false} FirstIsTold(bind: SocketAddr, events: seq<IfEvent>)
    ensures var n := FirstOwn(bind, events);
            if n == |events| then Announced(bind, events) == [] && AfterFirst(bind, events) == []
            else Announced(bind, events) != [] && Tells(bind, events[n], Announced(bind, events)[0])
                 && AfterFirst(bind, events) == events[n + 1..]
  {
    if events != [] {
      AnnounceTells(bind, events[0]);
      if Foreign(bind, events[0]) {
        FirstIsTold(bind, events[1..]);
        assert Announced(bind, events) == Announced(bind, events[1..]);
        var m := FirstOwn(bind, events[1..]);
        assert m < |events[1..]| ==> events[1..][m + 1..] == events[m + 2..];
      }
    }
  }

  function Accepted(sessions: seq<Multiaddr>): seq<TransportEvent> {
    if sessions == [] then [] else [NewConnection(sessions[0])] + Accepted(sessions[1..])
  }

  /** The three sources of a listener. */
  datatype Sources = Sources(pending: Option<TransportEvent>, watched: seq<IfEvent>, sessions: seq<Multiaddr>)
  {
    /** The events to come, if no more arrive. */
    function Queue(bind: SocketAddr): seq<TransportEvent>
      decreases |watched|, pending.Some?
    {
      if pending.Some? then [pending.value] + this.(pending := None).Queue(bind)
      else if watched == [] then Accepted(sessions)
      else (match Announce(bind, watched[0]) case Some(e) => [e] case None => [])
           + this.(watched := watched[1..]).Queue(bind)
    }
  }

  /** What is left of the interface events when the first announced one has been taken. */
  function AfterFirst(bind: SocketAddr, events: seq<IfEvent>): seq<IfEvent> {
    if events == [] then []
    else if Announce(bind, events[0]).Some? then events[1..]
    else AfterFirst(bind, events[1..])
  }

  function PollSources(bind: SocketAddr, s: Sources): (Sources, Polled) {
    if s.pending.Some? then (s.(pending := None), FromPending(s.pending.value))
    else
      var s' := s.(watched := AfterFirst(bind, s.watched));
      if Announced(bind, s.watched) != [] then (s', FromWatcher(Announced(bind, s.watched)[0]))
      else if s.sessions != [] then (s'.(sessions := s.sessions[1..]), FromAccept(NewConnection(s.sessions[0])))
      else (s', Nothing)
  }

  function EventOf(r: Polled): seq<TransportEvent> { if r.Nothing? then [] else [r.event] }

  lemma {:induction false} FirstIsTaken(bind: SocketAddr, events: seq<IfEvent>)
    ensures Announced(bind, events) != [] ==>
              Announced(bind, events) == [Announced(bind, events)[0]] + Announced(bind, AfterFirst(bind, events))
    ensures Announced(bind, events) == [] ==> AfterFirst(bind, events) == []
  {
    if events != [] && Announce(bind, events[0]).None? {
      FirstIsTaken(bind, events[1..]);
      assert Announced(bind, events) == Announced(bind, events[1..]);
    }
  }

  /** The queue is the pending event, then the announcements, then the connections. */
  lemma {:induction false} QueueIsInTurn(bind: SocketAddr, s: Sources)
    requires s.pending.None?
    ensures s.Queue(bind) == Announced(bind, s.watched) + Accepted(s.sessions)
    decreases |s.watched|
  {
    if s.watched != [] {
      var s' := s.(watched := s.watched[1..]);
      QueueIsInTurn(bind, s');
      if Announce(bind, s.watched[0]).Some? {
        var e := Announce(bind, s.watched[0]).value;
        assert [e] + (Announced(bind, s'.watched) + Accepted(s.sessions))
            == ([e] + Announced(bind, s'.watched)) + Accepted(s.sessions);
      }
    }
  }

  lemma PollTakesAnnounced(bind: SocketAddr, s: Sources)
    requires s.pending.None? && Announced(bind, s.watched) != []
    ensures var (s', r) := PollSources(bind, s); r.FromWatcher? && s.Queue(bind) == [r.event] + s'.Queue(bind)
  {
    var (s', r) := PollSources(bind, s);
    FirstIsTaken(bind, s.watched);
    QueueIsInTurn(bind, s);
    QueueIsInTurn(bind, s');
    var rest := Announced(bind, s'.watched);
    assert [r.event] + (rest + Accepted(s.sessions)) == ([r.event] + rest) + Accepted(s.sessions);
  }

  lemma PollTakesAccepted(bind: SocketAddr, s: Sources)
    requires s.pending.None? && Announced(bind, s.watched) == []
    ensures var (s', r) := PollSources(bind, s);
            s'.watched == [] && s.Queue(bind) == Accepted(s.sessions) && s'.Queue(bind) == Accepted(s'.sessions)
  {
    FirstIsTaken(bind, s.watched);
    QueueIsInTurn(bind, s);
    assert [] + Accepted(s.sessions) == Accepted(s.sessions);
  }

  /** A poll takes the head of the queue, and nothing only from an empty queue. */
  lemma PollTakesHead(bind: SocketAddr, s: Sources)
    ensures var (s', r) := PollSources(bind, s);
            && s.Queue(bind) == EventOf(r) + s'.Queue(bind)
            && (r.Nothing? <==> s.Queue(bind) == [])
  {
    if s.pending.None? {
      if Announced(bind, s.watched) != [] {
        PollTakesAnnounced(bind, s);
      } else {
        PollTakesAccepted(bind, s);
      }
    }
  }

  datatype PollNext = Ready(event: TransportEvent) | Pending | Spins

  class Listener {
    const bind: SocketAddr
    var pendingEvent: Option<TransportEvent>
    /** None for a listener that does not watch interfaces. */
    var ifWatcher: Option<seq<IfEvent>>
    var accept: seq<Multiaddr>
    var acceptOpen: bool

    constructor (bind: SocketAddr, ifWatcher: Option<seq<IfEvent>>, pendingEvent: Option<TransportEvent>)
      ensures this.bind == bind && this.ifWatcher == ifWatcher && acceptOpen
      ensures State() == Sources(pendingEvent, if ifWatcher.Some? then ifWatcher.value else [], [])
    {
      this.bind, this.ifWatcher, this.pendingEvent := bind, ifWatcher, pendingEvent;
      accept, acceptOpen := [], true;
    }

    function State(): Sources
      reads this
    {
      Sources(pendingEvent, if ifWatcher.Some? then ifWatcher.value else [], accept)
    }

    /** The events this listener will yield, if no more arrive. */
    function Queue(): seq<TransportEvent>
      reads this
    {
      State().Queue(bind)
    }

    method PollIfAddr() returns (r: Option<TransportEvent>)
      modifies this`ifWatcher
      ensures State() == old(State()).(watched := AfterFirst(bind, old(State()).watched))
      ensures r == if Announced(bind, old(State()).watched) == [] then None
                   else Some(Announced(bind, old(State()).watched)[0])
      ensures var watched := old(State()).watched;
              var n := FirstOwn(bind, watched);
              if n == |watched| then r.None? && State().watched == []
              else r.Some? && Tells(bind, watched[n], r.value) && State().watched == watched[n + 1..]
    {
      FirstIsTold(bind, State().watched);
      if ifWatcher.None? {
        return None;
      }
      while ifWatcher.value != []
        invariant ifWatcher.Some?
        invariant AfterFirst(bind, ifWatcher.value) == AfterFirst(bind, old(State()).watched)
        invariant Announced(bind, ifWatcher.value) == Announced(bind, old(State()).watched)
        decreases |ifWatcher.value|
      {
        var e := ifWatcher.value[0];
        ifWatcher := Some(ifWatcher.value[1..]);
        match e {
          case Up(ip) =>
            var addr := IpToListenaddr(bind, ip);
            if addr.Some? {
              return Some(ListenAddr(addr.value));
            }
          case Down(ip) =>
            var addr := IpToListenaddr(bind, ip);
            if addr.Some? {
              return Some(AddrExpired(addr.value));
            }
          case Failure(error) =>
            return Some(ListenError(error));
        }
      }
      r := None;
    }

    /** A closed accept channel that is used up makes the loop go round for ever; while the channel is open a poll
        takes the first event there is. */
    method PollNext() returns (r: PollNext)
      modifies this`pendingEvent, this`ifWatcher, this`accept
      ensures State() == PollSources(bind, old(State())).0
      ensures match PollSources(bind, old(State())).1
              case Nothing => r == if acceptOpen then Pending else Spins
              case found => r == Ready(found.event)
      ensures r.Ready? ==> old(Queue()) == [r.event] + Queue()
      ensures !r.Ready? ==> old(Queue()) == [] && Queue() == []
      ensures var before := old(State());
              var n := FirstOwn(bind, before.watched);
              if before.pending.Some? then
                r == Ready(before.pending.value) && State() == before.(pending := None)
              else if n < |before.watched| then
                r.Ready? && Tells(bind, before.watched[n], r.event)
                && State() == before.(watched := before.watched[n + 1..])
              else if before.sessions != [] then
                r == Ready(NewConnection(before.sessions[0]))
                && State() == before.(watched := [], sessions := before.sessions[1..])
              else r == (if acceptOpen then Pending else Spins) && State() == before.(watched := [])
    {
      FirstIsTold(bind, State().watched);
      PollTakesHead(bind, State());
      if pendingEvent.Some? {
        r := Ready(pendingEvent.value);
        pendingEvent := None;
        return;
      }
      var event := PollIfAddr();
      if event.Some? {
        return Ready(event.value);
      }
      if accept != [] {
        r := Ready(NewConnection(accept[0]));
        accept := accept[1..];
        return;
      }
      if !acceptOpen {
        return Spins;
      }
      r := Pending;
    }
  }

  // ----- runs of a listener -----

  datatype Occurrence = Watch(event: IfEvent) | Connect(address: Multiaddr) | Poll

  /** A run from a listener's start: what arrived, and what was emitted by each source. */
  datatype Run = Run(sources: Sources, watched: seq<IfEvent>, connected: seq<Multiaddr>,
                     fromPending: seq<TransportEvent>, fromWatcher: seq<TransportEvent>,
                     fromAccept: seq<TransportEvent>)

  function After(bind: SocketAddr, pending: Option<TransportEvent>, steps: seq<Occurrence>): Run {
    if steps == [] then Run(Sources(pending, [], []), [], [], [], [], [])
    else
      var before := After(bind, pending, steps[..|steps| - 1]);
      match steps[|steps| - 1]
      case Watch(e) =>
        before.(watched := before.watched + [e],
                sources := before.sources.(watched := before.sources.watched + [e]))
      case Connect(a) =>
        before.(connected := before.connected + [a],
                sources := before.sources.(sessions := before.sources.sessions + [a]))
      case Poll => AfterPoll(bind, before)
  }

  function AfterPoll(bind: SocketAddr, run: Run): Run {
    var (s, r) := PollSources(bind, run.sources);
    match r
    case FromPending(e) => run.(sources := s, fromPending := run.fromPending + [e])
    case FromWatcher(e) => run.(sources := s, fromWatcher := run.fromWatcher + [e])
    case FromAccept(e) => run.(sources := s, fromAccept := run.fromAccept + [e])
    case Nothing => run.(sources := s)
  }

  lemma {:induction false} AnnouncedNext(bind: SocketAddr, events: seq<IfEvent>, e: IfEvent)
    ensures Announced(bind, events + [e]) == Announced(bind, events) + Announced(bind, [e])
  {
    if events == [] {
      assert [] + [e] == [e];
    } else {
      AnnouncedNext(bind, events[1..], e);
      assert (events + [e])[1..] == events[1..] + [e];
    }
  }

  lemma {:induction false} AcceptedNext(sessions: seq<Multiaddr>, a: Multiaddr)
    ensures Accepted(sessions + [a]) == Accepted(sessions) + [NewConnection(a)]
  {
    if sessions != [] {
      AcceptedNext(sessions[1..], a);
      assert (sessions + [a])[1..] == sessions[1..] + [a];
    }
  }

  ghost predicate InOrder(bind: SocketAddr, pending: Option<TransportEvent>, run: Run) {
    && run.fromWatcher + Announced(bind, run.sources.watched) == Announced(bind, run.watched)
    && run.fromAccept + Accepted(run.sources.sessions) == Accepted(run.connected)
    && run.fromPending + (if run.sources.pending.Some? then [run.sources.pending.value] else [])
       == if pending.Some? then [pending.value] else []
  }

  /** One thing taken from the front of what is to come and put after what has come. */
  lemma Moved(done: seq<TransportEvent>, e: TransportEvent, rest: seq<TransportEvent>)
    ensures done + ([e] + rest) == (done + [e]) + rest
  {
  }

  lemma PollKeepsOrder(bind: SocketAddr, pending: Option<TransportEvent>, run: Run)
    requires InOrder(bind, pending, run)
    ensures InOrder(bind, pending, AfterPoll(bind, run))
  {
    var (s, r) := PollSources(bind, run.sources);
    FirstIsTaken(bind, run.sources.watched);
    if r.FromWatcher? {
      Moved(run.fromWatcher, r.event, Announced(bind, s.watched));
    } else if r.FromAccept? {
      assert Accepted(run.sources.sessions) == [r.event] + Accepted(s.sessions);
      Moved(run.fromAccept, r.event, Accepted(s.sessions));
    }
  }

  /** Whenever interface events and connections arrive and whenever the listener is polled, what the watcher has led
      to so far, and will lead to, is what everything it reported is to say, in order, events of the other family
      skipped; and the connections emitted are those made, in order. */
  lemma EachSourceInOrder(bind: SocketAddr, pending: Option<TransportEvent>, steps: seq<Occurrence>)
    ensures var run := After(bind, pending, steps);
            && InOrder(bind, pending, run)
            && (exists due :: Follows(bind, run.watched, run.fromWatcher + due) && Follows(bind, run.sources.watched, due))
            && |run.fromAccept| <= |run.connected| && run.sources.sessions == run.connected[|run.fromAccept|..]
            && forall i :: 0 <= i < |run.fromAccept| ==> run.fromAccept[i] == NewConnection(run.connected[i])
  {
    var run := After(bind, pending, steps);
    RunKeepsOrder(bind, pending, steps);
    AnnouncedFollows(bind, run.watched);
    AnnouncedFollows(bind, run.sources.watched);
    AcceptedInTurn(run.connected);
    AcceptedInTurn(run.sources.sessions);
    var n := |run.fromAccept|;
    assert forall i :: 0 <= i < n ==> Accepted(run.connected)[i] == run.fromAccept[i];
    forall i | 0 <= i < |run.sources.sessions| ensures run.sources.sessions[i] == run.connected[n + i] {
      assert Accepted(run.connected)[n + i] == Accepted(run.sources.sessions)[i];
    }
  }

  lemma {:induction false} AcceptedInTurn(sessions: seq<Multiaddr>)
    ensures |Accepted(sessions)| == |sessions|
    ensures forall i :: 0 <= i < |sessions| ==> Accepted(sessions)[i] == NewConnection(sessions[i])
  {
    if sessions != [] {
      AcceptedInTurn(sessions[1..]);
    }
  }

  lemma {:induction false} RunKeepsOrder(bind: SocketAddr, pending: Option<TransportEvent>, steps: seq<Occurrence>)
    ensures InOrder(bind, pending, After(bind, pending, steps))
  {
    if steps != [] {
      RunKeepsOrder(bind, pending, steps[..|steps| - 1]);
      var before := After(bind, pending, steps[..|steps| - 1]);
      match steps[|steps| - 1] {
        case Watch(e) =>
          AnnouncedNext(bind, before.watched, e);
          AnnouncedNext(bind, before.sources.watched, e);
        case Connect(a) =>
          AcceptedNext(before.connected, a);
          AcceptedNext(before.sources.sessions, a);
        case Poll => PollKeepsOrder(bind, pending, before);
      }
    }
  }
}
