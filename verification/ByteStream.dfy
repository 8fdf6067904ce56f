/** The WebTransport stream as a byte stream (sf-wt-transport/src/stream.rs). What one read of the receive stream
    yields is an arrival, which is no longer than that read asks for; a read with none queued is pending. */
module ByteStream {
  import opened Bytes

  const READ_MAX: nat := 8192

  datatype Yield = Chunk(bytes: seq<u8>) | Eof | Failure

  type Arrival = y: Yield | y.Chunk? ==> |y.bytes| <= READ_MAX witness Eof

  datatype Poll = Pending | Ready(count: nat)

  /** The bytes still to come, in order. */
  function Flatten(incoming: seq<Arrival>): seq<u8> {
    if incoming == [] then []
    else BytesOf(incoming[0]) + Flatten(incoming[1..])
  }

  function BytesOf(a: Arrival): seq<u8> { if a.Chunk? then a.bytes else [] }

  /** The leftover of the last chunk and the arrivals not read yet. */
  datatype Source = Source(leftover: Option<seq<u8>>, incoming: seq<Arrival>)
  {
    function Left(): seq<u8> { if leftover.Some? then leftover.value else [] }

    function Unread(): seq<u8> { Left() + Flatten(incoming) }

    predicate Valid() { leftover != Some([]) }
  }

  /** What a reader with a buffer of `n` bytes gets. */
  datatype Read = NotReady | Got(bytes: seq<u8>) | Ended | Failed | Panics

  /** The specification of a read, by cases on what is there. */
  function ReadFrom(s: Source, n: nat): (Source, Read) {
    if s.leftover.Some? then
      if |s.leftover.value| < n then (s, Panics)
      else (s.(leftover := Rest(s.leftover.value, n)), Got(s.leftover.value[..n]))
    else if s.incoming == [] then (s, NotReady)
    else
      var s' := s.(incoming := s.incoming[1..]);
      match s.incoming[0]
      case Eof => (s', Ended)
      case Failure => (s', Failed)
      case Chunk(bytes) =>
        if |bytes| <= n then (s', Got(bytes)) else (s'.(leftover := Rest(bytes, n)), Got(bytes[..n]))
  }

  function Rest(bytes: seq<u8>, n: nat): Option<seq<u8>>
    requires n <= |bytes|
  {
    if n < |bytes| then Some(bytes[n..]) else None
  }

  function Delivered(r: Read): seq<u8> { if r.Got? then r.bytes else [] }

  class Stream {
    var readBuf: Option<seq<u8>>
    var recvStream: seq<Arrival>

    function State(): Source
      reads this
    {
      Source(readBuf, recvStream)
    }

    constructor ()
      ensures State() == Source(None, [])
    {
      readBuf, recvStream := None, [];
    }

    /** An index panics before anything is written. */
    method PollRead(buf: array<u8>) returns (r: Outcome<Poll, ()>)
      modifies this, buf
      ensures State() == ReadFrom(old(State()), buf.Length).0
      ensures match ReadFrom(old(State()), buf.Length).1
              case NotReady => r == Outcome.Ok(Pending) && buf[..] == old(buf[..])
              case Got(bytes) => r == Outcome.Ok(Ready(|bytes|)) && |bytes| <= buf.Length
                                 && buf[..] == bytes + old(buf[..])[|bytes|..]
              case Ended => r == Outcome.Ok(Ready(0)) && buf[..] == old(buf[..])
              case Failed => r == Err(()) && buf[..] == old(buf[..])
              case Panics => r == Panicked && buf[..] == old(buf[..])
    {
      if readBuf.Some? {
        var bytes := readBuf.value;
        var len := buf.Length;
        if |bytes| < len {
          return Panicked;
        }
        CopyFromSlice(buf, bytes[..len]);
        if len < |bytes| {
          readBuf := Some(bytes[len..]);
          return Outcome.Ok(Ready(len));
        }
        readBuf := None;
        return Outcome.Ok(Ready(len));
      }
      if recvStream == [] {
        return Outcome.Ok(Pending);
      }
      var arrival := recvStream[0];
      recvStream := recvStream[1..];
      match arrival {
        case Eof => return Outcome.Ok(Ready(0));
        case Failure => return Err(());
        case Chunk(bytes) =>
          var len := if buf.Length < |bytes| then buf.Length else |bytes|;
          CopyFromSlice(buf, bytes[..len]);
          if len < |bytes| {
            readBuf := Some(bytes[len..]);
            return Outcome.Ok(Ready(len));
          }
          readBuf := None;
          return Outcome.Ok(Ready(len));
      }
    }
  }

  /** `buf[..len].copy_from_slice(bytes)` for the length of `bytes`. */
  method CopyFromSlice(buf: array<u8>, bytes: seq<u8>)
    requires |bytes| <= buf.Length
    modifies buf
    ensures buf[..] == bytes + old(buf[..])[|bytes|..]
  {
    for i := 0 to |bytes|
      invariant forall k :: 0 <= k < i ==> buf[k] == bytes[k]
      invariant forall k :: i <= k < buf.Length ==> buf[k] == old(buf[k])
    {
      buf[i] := bytes[i];
    }
  }

  // ----- one read -----

  /** Whatever a read does, what it delivers and what is then unread is what was unread. */
  lemma ReadSplits(s: Source, n: nat)
    requires s.Valid()
    ensures var (s', r) := ReadFrom(s, n);
            s'.Valid() && |Delivered(r)| <= n && Delivered(r) + s'.Unread() == s.Unread()
  {
    var (s', r) := ReadFrom(s, n);
    if s.leftover.Some? {
      if n <= |s.leftover.value| {
        assert s.leftover.value == s.leftover.value[..n] + s'.Left();
      }
    } else if s.incoming != [] && s.incoming[0].Chunk? {
      assert s.incoming[0].bytes == Delivered(r) + s'.Left();
    }
  }

  /** End of stream is reported only with the leftover used up, and then delivers nothing. */
  lemma EndedOnlyWhenDrained(s: Source, n: nat)
    requires s.Valid()
    ensures ReadFrom(s, n).1.Ended? <==> s.Left() == [] && s.incoming != [] && s.incoming[0].Eof?
    ensures ReadFrom(s, n).1.Panics? <==> s.Left() != [] && |s.Left()| < n
    ensures ReadFrom(s, n).1 == Got([]) <==>
            (n == 0 && s.Left() != [])
            || (s.Left() == [] && s.incoming != [] && s.incoming[0].Chunk? && (n == 0 || s.incoming[0].bytes == []))
  {
  }

  /** What a read has to give: the leftover, or without one the next arrival. */
  function There(s: Source): seq<u8> {
    if s.Left() != [] then s.Left() else if s.incoming != [] then BytesOf(s.incoming[0]) else []
  }

  /** A read is pending exactly when there is neither leftover nor arrival, and fails exactly when a failure is next;
      otherwise it fills the buffer or takes all there is, leaving the rest for later. An arrival is taken only without
      a leftover, and then once. */
  lemma ReadFills(s: Source, n: nat)
    requires s.Valid()
    ensures var (s', r) := ReadFrom(s, n);
            && (r.NotReady? <==> s.Left() == [] && s.incoming == [])
            && (r.Failed? <==> s.Left() == [] && s.incoming != [] && s.incoming[0].Failure?)
            && (r.Got? ==> r.bytes + s'.Left() == There(s) && |r.bytes| == if n < |There(s)| then n else |There(s)|)
            && (!r.Got? ==> s'.Left() == s.Left())
            && s'.incoming == if s.Left() != [] || s.incoming == [] then s.incoming else s.incoming[1..]
  {
  }

  // ----- runs -----

  datatype Event = Arrive(arrival: Arrival) | ReadWith(n: nat)

  datatype Run = Run(source: Source, received: seq<u8>, delivered: seq<u8>, panics: nat)

  function Advance(run: Run, event: Event): Run {
    match event
    case Arrive(a) =>
      run.(source := run.source.(incoming := run.source.incoming + [a]), received := run.received + BytesOf(a))
    case ReadWith(n) =>
      var (s', r) := ReadFrom(run.source, n);
      run.(source := s', delivered := run.delivered + Delivered(r),
           panics := run.panics + if r.Panics? then 1 else 0)
  }

  function After(events: seq<Event>): Run {
    if events == [] then Run(Source(None, []), [], [], 0)
    else Advance(After(events[..|events| - 1]), events[|events| - 1])
  }

  lemma {:induction false} FlattenNext(incoming: seq<Arrival>, a: Arrival)
    ensures Flatten(incoming + [a]) == Flatten(incoming) + BytesOf(a)
  {
    var more := incoming + [a];
    if incoming == [] {
      assert more == [a] && more[1..] == [];
      assert Flatten(more) == BytesOf(a) + Flatten(more[1..]);
    } else {
      FlattenNext(incoming[1..], a);
      assert more[0] == incoming[0] && more[1..] == incoming[1..] + [a];
      Regroup(BytesOf(incoming[0]), Flatten(incoming[1..]), BytesOf(a));
    }
  }

  lemma Regroup(x: seq<u8>, y: seq<u8>, z: seq<u8>)
    ensures (x + y) + z == x + (y + z)
  {
  }

  /** Over any arrivals and any reads, with buffers of any sizes, panicking or not: what was delivered, then the
      leftover, then what is unread, is what was received. */
  lemma {:induction false} NothingIsLost(events: seq<Event>)
    ensures var run := After(events);
            run.source.Valid() && run.delivered + run.source.Unread() == run.received
  {
    if events != [] {
      var before := After(events[..|events| - 1]);
      NothingIsLost(events[..|events| - 1]);
      match events[|events| - 1] {
        case Arrive(a) =>
          FlattenNext(before.source.incoming, a);
          Regroup(before.source.Left(), Flatten(before.source.incoming), BytesOf(a));
          Regroup(before.delivered, before.source.Unread(), BytesOf(a));
        case ReadWith(n) =>
          ReadSplits(before.source, n);
          var (s', r) := ReadFrom(before.source, n);
          Regroup(before.delivered, Delivered(r), s'.Unread());
      }
    }
  }

  /** A stream whose source is used up has delivered everything. */
  lemma DrainedIsComplete(events: seq<Event>)
    requires After(events).source.leftover.None? && After(events).source.incoming == []
    ensures After(events).delivered == After(events).received
  {
    NothingIsLost(events);
  }

  predicate ReadsOf(events: seq<Event>, n: nat) {
    forall e :: e in events && e.ReadWith? ==> e.n == n
  }

  lemma {:induction false} ByteReadsAreSafe(events: seq<Event>, n: nat)
    requires n <= 1 && ReadsOf(events, n)
    ensures After(events).panics == 0
  {
    if events != [] {
      ByteReadsAreSafe(events[..|events| - 1], n);
      NothingIsLost(events[..|events| - 1]);
      assert events[|events| - 1] in events;
    }
  }

  lemma {:induction false} LargeReadsAreSafe(events: seq<Event>, n: nat)
    requires n >= READ_MAX && ReadsOf(events, n)
    ensures After(events).panics == 0 && After(events).source.leftover.None?
  {
    if events != [] {
      LargeReadsAreSafe(events[..|events| - 1], n);
      assert events[|events| - 1] in events;
    }
  }

  /** A reader that always brings a buffer of `n` bytes is safe from the panic, whatever arrives, exactly when `n` is
      at most one, or at least what one read of the receive stream can yield. */
  lemma FixedBufferIsSafe(n: nat)
    ensures (forall events :: ReadsOf(events, n) ==> After(events).panics == 0) <==> n <= 1 || n >= READ_MAX
  {
    if n <= 1 || n >= READ_MAX {
      forall events | ReadsOf(events, n) ensures After(events).panics == 0 {
        if n <= 1 {
          ByteReadsAreSafe(events, n);
        } else {
          LargeReadsAreSafe(events, n);
        }
      }
    } else {
      ChunkThenPanic(n);
    }
  }

  lemma Extend(events: seq<Event>, event: Event)
    ensures After(events + [event]) == Advance(After(events), event)
  {
    assert (events + [event])[..|events|] == events;
  }

  /** A chunk one byte longer than the buffer leaves that byte behind. */
  lemma ChunkLeaves(bytes: seq<u8>, n: nat) returns (events: seq<Event>)
    requires |bytes| == n + 1 <= READ_MAX
    ensures ReadsOf(events, n) && After(events).source.leftover == Some(bytes[n..])
  {
    var chunk: Event := Arrive(Chunk(bytes));
    events := [chunk];
    Extend([], chunk);
    assert [] + events == events;
    Extend(events, ReadWith(n));
    events := events + [ReadWith(n)];
  }

  lemma ChunkThenPanic(n: nat)
    requires 2 <= n < READ_MAX
    ensures exists events :: ReadsOf(events, n) && After(events).panics > 0
  {
    var events := ChunkLeaves(Zeros(n + 1), n);
    Extend(events, ReadWith(n));
    assert ReadsOf(events + [ReadWith(n)], n);
  }
}
