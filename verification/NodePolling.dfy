/** Transports and the node that drains them (sf-wt-transport/src/lib.rs, sf-wt-transport/src/platform/native.rs,
    sf-node/src/node.rs). A poll that goes round for ever is an outcome of its own. */
module NodePolling {
  import opened Bytes
  import opened Multiaddrs
  import opened Polling

  /** What stands between a good address and a listener: the watcher, the endpoint, its local address. */
  datatype Endpoint = Bound(localAddr: SocketAddr) | Failed

  predicate IsUnspecified(ip: IpAddr) {
    ip == V4(0) || ip == V6(0)
  }

  /** The events to come from a transport: its own, then those of its listener. */
  function QueueOf(pending: seq<TransportEvent>, listener: Option<(SocketAddr, Sources)>): seq<TransportEvent> {
    if pending != [] then [pending[0]] + QueueOf(pending[1..], listener)
    else match listener case Some((bind, sources)) => sources.Queue(bind) case None => []
  }

  lemma {:induction false} QueueIsPendingFirst(pending: seq<TransportEvent>, listener: Option<(SocketAddr, Sources)>)
    ensures QueueOf(pending, listener) == pending + QueueOf([], listener)
  {
    if pending != [] {
      QueueIsPendingFirst(pending[1..], listener);
      HeadAndTail(pending, QueueOf([], listener));
    }
  }

  lemma HeadAndTail(pending: seq<TransportEvent>, later: seq<TransportEvent>)
    requires pending != []
    ensures pending + later == [pending[0]] + (pending[1..] + later)
  {
  }

  lemma FreshQueue(bind: SocketAddr, pending: Option<TransportEvent>)
    ensures QueueOf([], Some((bind, Sources(pending, [], [])))) == if pending.Some? then [pending.value] else []
  {
    assert Sources(None, [], []).Queue(bind) == Accepted([]) == [];
  }

  class WebTransport {
    var pendingEvents: seq<TransportEvent>
    var listener: Listener?

    constructor ()
      ensures pendingEvents == [] && listener == null
    {
      pendingEvents, listener := [], null;
    }

    predicate Open()
      reads this, listener
    {
      listener != null ==> listener.acceptOpen
    }

    function Watched(): Option<(SocketAddr, Sources)>
      reads this, listener
    {
      if listener == null then None else Some((listener.bind, listener.State()))
    }

    /** The events this transport will yield, if no more arrive. */
    function Queue(): seq<TransportEvent>
      reads this, listener
    {
      QueueOf(pendingEvents, Watched())
    }

    /** An address without a wildcard is announced by the transport and once more by the listener; a listener that
        was there before goes, with whatever it had still to report. */
    method ListenOn(addr: Multiaddr, endpoint: Endpoint) returns (ok: bool)
      modifies this
      ensures ok <==> LastIp(addr).Some? && LastPort(addr).Some? && endpoint.Bound?
      ensures !ok ==> pendingEvents == old(pendingEvents) && listener == old(listener)
      ensures ok ==> listener != null && fresh(listener) && listener.acceptOpen && listener.bind == endpoint.localAddr
      ensures ok ==> (listener.ifWatcher.Some? <==> LastIp(addr) == Some(V4(0)) || LastIp(addr) == Some(V6(0)))
      ensures ok ==> Queue() == old(pendingEvents) + [ListenAddr(addr)]
                                + if IsUnspecified(LastIp(addr).value) then [] else [ListenAddr(addr)]
    {
      var bind := ExtractIpPort(addr);
      if !bind.Ok? || endpoint.Failed? {
        return false;
      }
      var watch := IsUnspecified(bind.value.0);
      pendingEvents := pendingEvents + [ListenAddr(addr)];
      listener := new Listener(endpoint.localAddr, if watch then Some([]) else None,
                               if watch then None else Some(ListenAddr(addr)));
      QueueIsPendingFirst(pendingEvents, Watched());
      FreshQueue(endpoint.localAddr, if watch then None else Some(ListenAddr(addr)));
      ok := true;
    }

    /** Goes round for ever exactly if there is nothing queued and the listener's accept channel is closed. */
    method Poll() returns (r: PollNext)
      modifies this`pendingEvents, listener
      ensures Open() == old(Open())
      ensures r.Ready? <==> old(Queue()) != []
      ensures r.Ready? ==> old(Queue()) == [r.event] + Queue()
      ensures !r.Ready? ==> Queue() == [] && (r.Spins? <==> !Open())
    {
      if pendingEvents != [] {
        r := Ready(pendingEvents[0]);
        pendingEvents := pendingEvents[1..];
        return;
      }
      if listener != null {
        var next := listener.PollNext();
        return next;
      }
      r := Pending;
    }
  }

  // ----- the node -----

  /** One transport as a node sees it. */
  datatype Line = Line(queue: seq<TransportEvent>, open: bool)

  /** All events, transport by transport. */
  function Flat(lines: seq<Line>): seq<TransportEvent> {
    if lines == [] then [] else lines[0].queue + Flat(lines[1..])
  }

  /** The events up to and including those of the first transport whose accept channel is closed. */
  function Due(lines: seq<Line>): seq<TransportEvent> {
    if lines == [] then []
    else if lines[0].open then lines[0].queue + Due(lines[1..])
    else lines[0].queue
  }

  predicate AllOpen(lines: seq<Line>) { forall i :: 0 <= i < |lines| ==> lines[i].open }

  /** Empty, and in the way of nothing. */
  predicate Passed(line: Line) { line.queue == [] && line.open }

  lemma {:induction false} AllAreDue(lines: seq<Line>)
    requires AllOpen(lines)
    ensures Due(lines) == Flat(lines)
  {
    if lines != [] {
      AllAreDue(lines[1..]);
    }
  }

  /** Behind a closed transport nothing is due. */
  lemma {:induction false} DueUpToClosed(lines: seq<Line>, i: nat)
    requires i < |lines| && AllOpen(lines[..i]) && !lines[i].open
    ensures Due(lines) == Flat(lines[..i + 1])
  {
    if i == 0 {
      assert lines[..1][0] == lines[0] && Flat(lines[..1][1..]) == [];
    } else {
      assert lines[..i][0] == lines[0] && lines[1..][..i - 1] == lines[..i][1..];
      DueUpToClosed(lines[1..], i - 1);
      assert lines[..i + 1][1..] == lines[1..][..i];
    }
  }

  /** Taking the head of the first transport that is not passed by takes the head of all that is due. */
  lemma {:induction false} TakenFromFirst(lines: seq<Line>, lines': seq<Line>, i: nat, e: TransportEvent)
    requires i < |lines| == |lines'| && lines[i].queue == [e] + lines'[i].queue && lines'[i].open == lines[i].open
    requires forall j :: 0 <= j < i ==> Passed(lines[j])
    requires forall j :: 0 <= j < |lines| && j != i ==> lines'[j] == lines[j]
    ensures Due(lines) == [e] + Due(lines')
  {
    if i == 0 {
      assert lines[1..] == lines'[1..];
      Regroup(e, lines'[0].queue, Due(lines[1..]));
    } else {
      TakenFromFirst(lines[1..], lines'[1..], i - 1, e);
      assert Passed(lines[0]) && lines'[0] == lines[0];
    }
  }

  lemma Regroup(e: TransportEvent, queue: seq<TransportEvent>, rest: seq<TransportEvent>)
    ensures ([e] + queue) + rest == [e] + (queue + rest)
  {
  }

  /** Nothing is due behind transports that are passed by, up to the end or to an empty one that is closed. */
  lemma {:induction false} NothingDue(lines: seq<Line>, i: nat)
    requires i <= |lines| && forall j :: 0 <= j < i ==> Passed(lines[j])
    requires i < |lines| ==> lines[i].queue == [] && !lines[i].open
    ensures Due(lines) == []
  {
    if i > 0 {
      NothingDue(lines[1..], i - 1);
      assert Passed(lines[0]);
    }
  }

  class Node {
    /** The transports, in the order in which the map iterates over them. */
    const transports: seq<WebTransport>

    /** The transports and their listeners. */
    ghost const parts: set<object>

    constructor (transports: seq<WebTransport>, ghost parts: set<object>)
      ensures this.transports == transports && this.parts == parts
    {
      this.transports, this.parts := transports, parts;
    }

    /** Transports and listeners are not shared. */
    ghost predicate Valid()
      reads parts
    {
      && (forall i :: 0 <= i < |transports| ==> Part(i))
      && (forall i, j :: 0 <= i < j < |transports| ==> Part(i) && Part(j) && Apart(transports[i], transports[j]))
    }

    ghost predicate Part(i: nat)
      requires i < |transports|
      reads parts
    {
      transports[i] in parts && (transports[i].listener == null || transports[i].listener in parts)
    }

    ghost predicate Apart(t: WebTransport, u: WebTransport)
      reads t, u
    {
      t != u && (t.listener != null ==> t.listener != u.listener)
    }

    ghost function Lines(): (lines: seq<Line>)
      requires Valid()
      reads parts
      ensures |lines| == |transports|
      ensures forall i :: 0 <= i < |transports| ==> lines[i] == Line(transports[i].Queue(), transports[i].Open())
    {
      LinesFrom(0)
    }

    ghost function LinesFrom(i: nat): (lines: seq<Line>)
      requires i <= |transports| && Valid()
      reads parts
      ensures |lines| == |transports| - i
      ensures forall j :: i <= j < |transports| ==> lines[j - i] == Line(transports[j].Queue(), transports[j].Open())
      decreases |transports| - i
    {
      if i == |transports| then []
      else
        assert Part(i);
        [Line(transports[i].Queue(), transports[i].Open())] + LinesFrom(i + 1)
    }

    method PollAt(i: nat) returns (r: PollNext)
      requires Valid() && i < |transports|
      modifies transports[i], transports[i].listener
      ensures Valid() && transports[i].listener == old(transports[i].listener)
      ensures forall j :: 0 <= j < |transports| && j != i ==> Lines()[j] == old(Lines())[j]
      ensures Lines()[i].open == old(Lines())[i].open
      ensures r.Ready? ==> old(Lines())[i].queue == [r.event] + Lines()[i].queue
      ensures !r.Ready? ==> old(Lines())[i].queue == Lines()[i].queue == [] && (r.Spins? <==> !Lines()[i].open)
    {
      assert Part(i);
      r := transports[i].Poll();
      forall j | 0 <= j < |transports| ensures Part(j) {
        assert old(Part(j));
      }
    }

    /** One turn of the outer loop: the transports in order, up to the first that has an event, or does not return. */
    method PollInOrder() returns (r: PollNext)
      requires Valid()
      modifies parts
      ensures Valid()
      ensures r.Ready? ==> Due(old(Lines())) == [r.event] + Due(Lines()) && (AllOpen(Lines()) <==> AllOpen(old(Lines())))
      ensures !r.Ready? ==> Lines() == old(Lines()) && Due(Lines()) == [] && (r.Pending? <==> AllOpen(Lines()))
    {
      ghost var lines := Lines();
      for i := 0 to |transports|
        invariant Valid() && Lines() == lines
        invariant forall j :: 0 <= j < i ==> Passed(lines[j])
      {
        assert Part(i);
        r := PollAt(i);
        if r.Ready? {
          TakenFromFirst(lines, Lines(), i, r.event);
          assert forall j :: 0 <= j < |lines| ==> Lines()[j].open == lines[j].open;
          return;
        }
        assert Lines() == lines;
        if r.Spins? {
          NothingDue(lines, i);
          return;
        }
      }
      NothingDue(lines, |lines|);
      r := Pending;
    }

    /** One poll returns exactly if no transport's accept channel is closed. It logs the queued events, transport by
        transport and in each transport's order: all of them if it returns, else those up to the first closed transport,
        where it goes round for ever. It never yields an event of its own. */
    method PollNextEvent() returns (logged: seq<TransportEvent>, returned: bool)
      requires Valid()
      modifies parts
      ensures Valid()
      ensures returned <==> AllOpen(old(Lines()))
      ensures logged == Due(old(Lines())) && Due(Lines()) == []
      ensures returned ==> logged == Flat(old(Lines())) && Flat(Lines()) == []
    {
      logged := [];
      while true
        invariant Valid()
        invariant logged + Due(Lines()) == Due(old(Lines()))
        invariant AllOpen(Lines()) <==> AllOpen(old(Lines()))
        decreases |Due(Lines())|
      {
        var event := PollInOrder();
        if !event.Ready? {
          returned := event.Pending?;
          if returned {
            AllAreDue(Lines());
            AllAreDue(old(Lines()));
          }
          return;
        }
        Moved(logged, event.event, Due(Lines()));
        logged := logged + [event.event];
      }
    }
  }
}
