/** Observers and readers of one histogram instance at the same time. `observe` is three atomic steps
    (sf-metrics/src/inmemory/histogram.rs:68-89), a reader takes one atomic step for each slot, then reads the sum,
    then the count (sf-metrics/src/inmemory/implementation.rs:46-53). */
module HistogramSnapshots {
  import opened Bytes
  import opened Histograms

  /** What an observer has still to do. */
  datatype Observer = Summing | Counting

  /** A reader: what it has read, the slots and the count when it started, and the observers in flight when it read
      the count. */
  datatype Reader = Reader(startSlots: seq<nat>, startCount: nat, slots: seq<nat>, sum: Option<real>,
                           count: Option<nat>, inFlight: nat)

  /** `history` is the finite values in the order of their first step; an observer is named by its place in it. */
  datatype State = State(slots: seq<nat>, sum: real, count: nat, history: seq<F64>, observers: map<nat, Observer>,
                         readers: map<nat, Reader>)

  datatype Step =
    | AddSlot(v: real)
    | AddSum(o: nat)
    | AddCount(o: nat)
    | StartRead(r: nat)
    | ReadSlot(r: nat)
    | ReadSum(r: nat)
    | ReadCount(r: nat)

  function Init(b: seq<real>): State {
    State(seq(|b| + 1, _ => 0), 0.0, 0, [], map[], map[])
  }

  predicate Enabled(s: State, step: Step) {
    match step
    case AddSlot(v) => true
    case AddSum(o) => o < |s.history| && s.history[o].Finite? && o in s.observers && s.observers[o].Summing?
    case AddCount(o) => o in s.observers && s.observers[o].Counting?
    case StartRead(r) => r !in s.readers
    case ReadSlot(r) => r in s.readers && |s.readers[r].slots| < |s.slots|
    case ReadSum(r) => r in s.readers && |s.readers[r].slots| == |s.slots| && s.readers[r].sum.None?
    case ReadCount(r) => r in s.readers && s.readers[r].sum.Some? && s.readers[r].count.None?
  }

  function Apply(b: seq<real>, s: State, step: Step): State
    requires Increasing(b) && |s.slots| == |b| + 1 && Enabled(s, step)
  {
    match step
    case AddSlot(v) =>
      var i := SlotOf(b, v);
      s.(slots := s.slots[i := s.slots[i] + 1], history := s.history + [Finite(v)],
         observers := s.observers[|s.history| := Summing])
    case AddSum(o) => s.(sum := s.sum + s.history[o].r, observers := s.observers[o := Counting])
    case AddCount(o) => s.(count := s.count + 1, observers := s.observers - {o})
    case StartRead(r) => s.(readers := s.readers[r := Reader(s.slots, s.count, [], None, None, 0)])
    case ReadSlot(r) =>
      var reader := s.readers[r];
      s.(readers := s.readers[r := reader.(slots := reader.slots + [s.slots[|reader.slots|]])])
    case ReadSum(r) => s.(readers := s.readers[r := s.readers[r].(sum := Some(s.sum))])
    case ReadCount(r) =>
      s.(readers := s.readers[r := s.readers[r].(count := Some(s.count), inFlight := |s.observers|)])
  }

  /** The state after a run, if each of its steps could be taken. */
  function After(b: seq<real>, steps: seq<Step>): (s: Option<State>)
    requires Increasing(b)
    ensures s.Some? ==> |s.value.slots| == |b| + 1
  {
    if steps == [] then Some(Init(b))
    else
      var before := After(b, steps[..|steps| - 1]);
      if before.Some? && Enabled(before.value, steps[|steps| - 1])
      then Some(Apply(b, before.value, steps[|steps| - 1])) else None
  }

  function Total(slots: seq<nat>): nat {
    if slots == [] then 0 else Total(slots[..|slots| - 1]) + slots[|slots| - 1]
  }

  lemma {:induction false} TotalAfterIncrement(slots: seq<nat>, i: nat)
    requires i < |slots|
    ensures Total(slots[i := slots[i] + 1]) == Total(slots) + 1
  {
    var slots', n := slots[i := slots[i] + 1], |slots| - 1;
    if i < n {
      TotalAfterIncrement(slots[..n], i);
      assert slots'[..n] == slots[..n][i := slots[i] + 1];
    } else {
      assert slots'[..n] == slots[..n];
    }
  }

  predicate Below(small: seq<nat>, large: seq<nat>)
    requires |small| <= |large|
  {
    forall i :: 0 <= i < |small| ==> small[i] <= large[i]
  }

  lemma {:induction false} TotalIsMonotone(small: seq<nat>, large: seq<nat>)
    requires |small| == |large| && Below(small, large)
    ensures Total(small) <= Total(large)
  {
    if small != [] {
      TotalIsMonotone(small[..|small| - 1], large[..|large| - 1]);
    }
  }

  lemma {:induction false} TotalOfNothing(n: nat)
    ensures Total(seq(n, _ => 0)) == 0
  {
    if n > 0 {
      assert seq(n, _ => 0)[..n - 1] == seq(n - 1, _ => 0);
      TotalOfNothing(n - 1);
    }
  }

  // ----- what observers keep -----

  /** What the first `n` observers have added to the sum. */
  function Summed(h: seq<F64>, observers: map<nat, Observer>, n: nat): real
    requires n <= |h|
  {
    if n == 0 then 0.0
    else
      Summed(h, observers, n - 1)
      + if h[n - 1].Finite? && !(n - 1 in observers && observers[n - 1].Summing?) then h[n - 1].r else 0.0
  }

  lemma {:induction false} SummedStays(h: seq<F64>, observers: map<nat, Observer>, h': seq<F64>,
                                       observers': map<nat, Observer>, n: nat)
    requires n <= |h| && h <= h'
    requires forall o: nat :: o < n ==>
               ((o in observers && observers[o].Summing?) <==> (o in observers' && observers'[o].Summing?))
    ensures Summed(h', observers', n) == Summed(h, observers, n)
  {
    if n > 0 {
      SummedStays(h, observers, h', observers', n - 1);
    }
  }

  lemma {:induction false} SummedAfter(h: seq<F64>, observers: map<nat, Observer>, o: nat, n: nat)
    requires o < n <= |h| && h[o].Finite? && o in observers && observers[o].Summing?
    ensures Summed(h, observers[o := Counting], n) == Summed(h, observers, n) + h[o].r
  {
    if o == n - 1 {
      SummedStays(h, observers, h, observers[o := Counting], n - 1);
    } else {
      SummedAfter(h, observers, o, n - 1);
    }
  }

  /** Slots, sum and count, each against the history, with what is still in flight. */
  ghost predicate Accounted(b: seq<real>, s: State)
    requires Increasing(b)
  {
    && |s.slots| == |b| + 1
    && (forall i :: 0 <= i <= |b| ==> s.slots[i] == CountIn(b, s.history, i))
    && (forall i :: 0 <= i < |s.history| ==> s.history[i].Finite?)
    && (forall o :: o in s.observers ==> o < |s.history|)
    && s.sum == Summed(s.history, s.observers, |s.history|)
    && s.count + |s.observers| == |s.history| == Total(s.slots)
  }

  lemma {:induction false} HistoryIsObserved(b: seq<real>, steps: seq<Step>)
    requires Increasing(b) && After(b, steps).Some?
    ensures After(b, steps).value.history == Observed(steps)
  {
    if steps != [] {
      HistoryIsObserved(b, steps[..|steps| - 1]);
    }
  }

  /** The values observed in a run, by their first steps. */
  function Observed(steps: seq<Step>): seq<F64> {
    if steps == [] then []
    else
      var last := steps[|steps| - 1];
      Observed(steps[..|steps| - 1]) + if last.AddSlot? then [Finite(last.v)] else []
  }

  lemma SlotStepKeepsCounts(b: seq<real>, s: State, v: real)
    requires Increasing(b) && Accounted(b, s)
    ensures var s' := Apply(b, s, AddSlot(v));
            && (forall i :: 0 <= i <= |b| ==> s'.slots[i] == CountIn(b, s'.history, i))
            && Total(s'.slots) == |s'.history|
  {
    var slot := SlotOf(b, v);
    TotalAfterIncrement(s.slots, slot);
    var h' := s.history + [Finite(v)];
    assert h'[..|s.history|] == s.history;
    forall i: nat | i <= |b| ensures InSlot(b, i, v) <==> i == slot {
      SlotIsUnique(b, v, i, slot);
    }
  }

  lemma SlotStepKeepsSum(s: State, v: real)
    requires forall o :: o in s.observers ==> o < |s.history|
    ensures var n := |s.history|;
            Summed(s.history + [Finite(v)], s.observers[n := Summing], n + 1) == Summed(s.history, s.observers, n)
    ensures |s.observers[|s.history| := Summing]| == |s.observers| + 1
  {
    var n := |s.history|;
    var observers := s.observers[n := Summing];
    SummedStays(s.history, s.observers, s.history + [Finite(v)], observers, n);
    assert observers.Keys == s.observers.Keys + {n};
  }

  lemma SlotStepKeepsAccounts(b: seq<real>, s: State, v: real)
    requires Increasing(b) && Accounted(b, s)
    ensures Accounted(b, Apply(b, s, AddSlot(v)))
  {
    SlotStepKeepsCounts(b, s, v);
    SlotStepKeepsSum(s, v);
  }

  lemma SumStepKeepsAccounts(b: seq<real>, s: State, o: nat)
    requires Increasing(b) && Accounted(b, s) && Enabled(s, AddSum(o))
    ensures Accounted(b, Apply(b, s, AddSum(o)))
  {
    SummedAfter(s.history, s.observers, o, |s.history|);
    assert s.observers[o := Counting].Keys == s.observers.Keys;
  }

  lemma CountStepKeepsAccounts(b: seq<real>, s: State, o: nat)
    requires Increasing(b) && Accounted(b, s) && Enabled(s, AddCount(o))
    ensures Accounted(b, Apply(b, s, AddCount(o)))
  {
    var s' := Apply(b, s, AddCount(o));
    SummedStays(s.history, s.observers, s.history, s'.observers, |s.history|);
    assert s'.observers.Keys == s.observers.Keys - {o};
  }

  // ----- what readers see -----

  ghost predicate ReaderOk(s: State, reader: Reader) {
    && |reader.slots| <= |reader.startSlots| == |s.slots|
    && Below(reader.startSlots, s.slots)
    && Below(reader.slots, s.slots)
    && (forall i :: 0 <= i < |reader.slots| ==> reader.startSlots[i] <= reader.slots[i])
    && reader.startCount <= Total(reader.startSlots)
    && reader.startCount <= s.count
    && (reader.sum.Some? ==> |reader.slots| == |s.slots|)
    && (reader.count.Some? ==> reader.sum.Some? && SnapshotOk(reader))
  }

  ghost predicate SnapshotOk(reader: Reader)
    requires reader.count.Some?
  {
    reader.startCount <= Total(reader.slots) <= reader.count.value + reader.inFlight
  }

  ghost predicate Inv(b: seq<real>, s: State)
    requires Increasing(b)
  {
    Accounted(b, s) && forall r :: r in s.readers ==> ReaderOk(s, s.readers[r])
  }

  /** Slots and count only grow, so an idle reader stays right. */
  lemma ReaderStays(s: State, s': State, reader: Reader)
    requires ReaderOk(s, reader) && |s.slots| == |s'.slots| && Below(s.slots, s'.slots) && s.count <= s'.count
    ensures ReaderOk(s', reader)
  {
  }

  lemma ReaderReads(b: seq<real>, s: State, step: Step, r: nat)
    requires Increasing(b) && Inv(b, s) && Enabled(s, step)
    requires step == StartRead(r) || step == ReadSlot(r) || step == ReadSum(r)
    ensures ReaderOk(Apply(b, s, step), Apply(b, s, step).readers[r])
  {
  }

  lemma ReaderEnds(b: seq<real>, s: State, r: nat)
    requires Increasing(b) && Inv(b, s) && Enabled(s, ReadCount(r))
    ensures ReaderOk(Apply(b, s, ReadCount(r)), Apply(b, s, ReadCount(r)).readers[r])
  {
    TotalIsMonotone(s.readers[r].slots, s.slots);
    TotalIsMonotone(s.readers[r].startSlots, s.readers[r].slots);
  }

  lemma StepKeepsAccounts(b: seq<real>, s: State, step: Step)
    requires Increasing(b) && Accounted(b, s) && Enabled(s, step)
    ensures Accounted(b, Apply(b, s, step))
  {
    match step {
      case AddSlot(v) => SlotStepKeepsAccounts(b, s, v);
      case AddSum(o) => SumStepKeepsAccounts(b, s, o);
      case AddCount(o) => CountStepKeepsAccounts(b, s, o);
      case _ =>
    }
  }

  lemma StepKeepsReader(b: seq<real>, s: State, step: Step, r: nat)
    requires Increasing(b) && Inv(b, s) && Enabled(s, step) && r in Apply(b, s, step).readers
    ensures ReaderOk(Apply(b, s, step), Apply(b, s, step).readers[r])
  {
    var s' := Apply(b, s, step);
    if r in s.readers && s'.readers[r] == s.readers[r] {
      ReaderStays(s, s', s.readers[r]);
    } else if step == ReadCount(r) {
      ReaderEnds(b, s, r);
    } else {
      ReaderReads(b, s, step, r);
    }
  }

  lemma StepKeepsInv(b: seq<real>, s: State, step: Step)
    requires Increasing(b) && Inv(b, s) && Enabled(s, step)
    ensures Inv(b, Apply(b, s, step))
  {
    StepKeepsAccounts(b, s, step);
    forall r | r in Apply(b, s, step).readers ensures ReaderOk(Apply(b, s, step), Apply(b, s, step).readers[r]) {
      StepKeepsReader(b, s, step, r);
    }
  }

  lemma {:induction false} RunKeepsInv(b: seq<real>, steps: seq<Step>)
    requires Increasing(b) && After(b, steps).Some?
    ensures Inv(b, After(b, steps).value)
  {
    if steps == [] {
      TotalOfNothing(|b| + 1);
    } else {
      RunKeepsInv(b, steps[..|steps| - 1]);
      StepKeepsInv(b, After(b, steps[..|steps| - 1]).value, steps[|steps| - 1]);
    }
  }

  // ----- results -----

  /** At every moment of every run the slots add up to the count and the observers that have added to a slot but
      not yet to the count. */
  lemma SlotsLeadCount(b: seq<real>, steps: seq<Step>)
    requires Increasing(b) && After(b, steps).Some?
    ensures var s := After(b, steps).value; Total(s.slots) == s.count + |s.observers|
  {
    RunKeepsInv(b, steps);
  }

  /** A finished read has slots that add up to at least the count when it started, and to at most the count it read
      plus the observers in flight at that moment. */
  lemma SnapshotBounds(b: seq<real>, steps: seq<Step>, r: nat)
    requires Increasing(b) && After(b, steps).Some?
    requires var s := After(b, steps).value; r in s.readers && s.readers[r].count.Some?
    ensures var reader := After(b, steps).value.readers[r];
            && |reader.slots| == |b| + 1
            && reader.startCount <= Total(reader.slots) <= reader.count.value + reader.inFlight
  {
    RunKeepsInv(b, steps);
  }

  // ----- what a read misses -----

  /** An observation in a slot that reader `r` has already read, made before `r` reads the count. */
  predicate Misses(b: seq<real>, s: State, step: Step, r: nat)
    requires Increasing(b)
  {
    && step.AddSlot? && r in s.readers && s.readers[r].count.None?
    && SlotOf(b, step.v) < |s.readers[r].slots|
  }

  /** How many observations reader `r` missed. */
  function Missed(b: seq<real>, steps: seq<Step>, r: nat): nat
    requires Increasing(b) && After(b, steps).Some?
  {
    if steps == [] then 0
    else
      var prefix := steps[..|steps| - 1];
      Missed(b, prefix, r) + if Misses(b, After(b, prefix).value, steps[|steps| - 1], r) then 1 else 0
  }

  /** How many observations began while reader `r` was reading. */
  function Begun(b: seq<real>, steps: seq<Step>, r: nat): nat
    requires Increasing(b) && After(b, steps).Some?
  {
    if steps == [] then 0
    else
      var prefix, last := steps[..|steps| - 1], steps[|steps| - 1];
      var s := After(b, prefix).value;
      Begun(b, prefix, r) + if last.AddSlot? && r in s.readers && s.readers[r].count.None? then 1 else 0
  }

  lemma {:induction false} MissedHaveBegun(b: seq<real>, steps: seq<Step>, r: nat)
    requires Increasing(b) && After(b, steps).Some?
    ensures Missed(b, steps, r) <= Begun(b, steps, r)
  {
    if steps != [] {
      MissedHaveBegun(b, steps[..|steps| - 1], r);
    }
  }

  /** The slots read and the observations missed are the slots as they are now; once the count is read, they are that
      count and what was then in flight. */
  ghost predicate Matches(s: State, r: nat, missed: nat) {
    if r !in s.readers then missed == 0
    else
      var reader := s.readers[r];
      && |reader.slots| <= |s.slots|
      && Total(reader.slots) + missed ==
         if reader.count.None? then Total(s.slots[..|reader.slots|]) else reader.count.value + reader.inFlight
  }

  lemma TotalNext(slots: seq<nat>, x: nat)
    ensures Total(slots + [x]) == Total(slots) + x
  {
    assert (slots + [x])[..|slots|] == slots;
  }

  lemma ObservationMatches(b: seq<real>, s: State, v: real, r: nat, missed: nat)
    requires Increasing(b) && |s.slots| == |b| + 1 && Matches(s, r, missed)
    ensures Matches(Apply(b, s, AddSlot(v)), r, missed + if Misses(b, s, AddSlot(v), r) then 1 else 0)
  {
    if r in s.readers && s.readers[r].count.None? {
      var i, m := SlotOf(b, v), |s.readers[r].slots|;
      var slots' := s.slots[i := s.slots[i] + 1];
      if i < m {
        TotalAfterIncrement(s.slots[..m], i);
        assert slots'[..m] == s.slots[..m][i := s.slots[i] + 1];
      } else {
        assert slots'[..m] == s.slots[..m];
      }
    }
  }

  lemma ReadMatches(b: seq<real>, s: State, r: nat, missed: nat)
    requires Increasing(b) && Inv(b, s) && Enabled(s, ReadSlot(r)) && Matches(s, r, missed)
    ensures Matches(Apply(b, s, ReadSlot(r)), r, missed)
  {
    var reader := s.readers[r];
    var m := |reader.slots|;
    assert ReaderOk(s, reader);
    TotalNext(reader.slots, s.slots[m]);
    TotalNext(s.slots[..m], s.slots[m]);
    assert s.slots[..m + 1] == s.slots[..m] + [s.slots[m]];
  }

  lemma CountMatches(b: seq<real>, s: State, r: nat, missed: nat)
    requires Increasing(b) && Inv(b, s) && Enabled(s, ReadCount(r)) && Matches(s, r, missed)
    ensures Matches(Apply(b, s, ReadCount(r)), r, missed)
  {
    assert ReaderOk(s, s.readers[r]);
    assert s.slots[..|s.slots|] == s.slots;
  }

  lemma StepMatches(b: seq<real>, s: State, step: Step, r: nat, missed: nat)
    requires Increasing(b) && Inv(b, s) && Enabled(s, step) && Matches(s, r, missed)
    ensures Matches(Apply(b, s, step), r, missed + if Misses(b, s, step, r) then 1 else 0)
  {
    match step {
      case AddSlot(v) => ObservationMatches(b, s, v, r, missed);
      case ReadSlot(q) => if q == r { ReadMatches(b, s, r, missed); }
      case ReadCount(q) => if q == r { CountMatches(b, s, r, missed); }
      case _ =>
    }
  }

  lemma {:induction false} RunMatches(b: seq<real>, steps: seq<Step>, r: nat)
    requires Increasing(b) && After(b, steps).Some?
    ensures Matches(After(b, steps).value, r, Missed(b, steps, r))
  {
    if steps != [] {
      var prefix := steps[..|steps| - 1];
      RunMatches(b, prefix, r);
      RunKeepsInv(b, prefix);
      StepMatches(b, After(b, prefix).value, steps[|steps| - 1], r, Missed(b, prefix, r));
    }
  }

  /** The slots of a finished read fall short of the count by the observations missed and exceed it by those in flight
      when the count was read; so they add up to it exactly when the two are equally many. */
  lemma SnapshotIsExact(b: seq<real>, steps: seq<Step>, r: nat)
    requires Increasing(b) && After(b, steps).Some?
    requires var s := After(b, steps).value; r in s.readers && s.readers[r].count.Some?
    ensures var reader := After(b, steps).value.readers[r];
            && Total(reader.slots) + Missed(b, steps, r) == reader.count.value + reader.inFlight
            && (Total(reader.slots) == reader.count.value <==> Missed(b, steps, r) == reader.inFlight)
  {
    RunMatches(b, steps, r);
  }

  /** A read during which no observation began, and at whose end none was in flight, has slots that add up to the
      count. */
  lemma UndisturbedReadAddsUp(b: seq<real>, steps: seq<Step>, r: nat)
    requires Increasing(b) && After(b, steps).Some?
    requires var s := After(b, steps).value; r in s.readers && s.readers[r].count.Some?
    requires Begun(b, steps, r) == 0 && After(b, steps).value.readers[r].inFlight == 0
    ensures var reader := After(b, steps).value.readers[r]; Total(reader.slots) == reader.count.value
  {
    SnapshotIsExact(b, steps, r);
    MissedHaveBegun(b, steps, r);
  }

  lemma {:induction false} SummedAtRest(h: seq<F64>, n: nat)
    requires n <= |h| && forall i :: 0 <= i < n ==> h[i].Finite?
    ensures Summed(h, map[], n) == Sum(h[..n]) && CountFinite(h[..n]) == n
  {
    if n > 0 {
      SummedAtRest(h, n - 1);
      assert h[..n][..n - 1] == h[..n - 1];
    }
  }

  /** However observers interleave, once none is in flight the slots, the sum and the count are those of the same
      observations made one after the other. */
  lemma AtRestAsIfInTurn(b: seq<real>, steps: seq<Step>)
    requires Increasing(b) && After(b, steps).Some? && After(b, steps).value.observers == map[]
    ensures var s := After(b, steps).value;
            && |s.slots| == |b| + 1
            && (forall i :: 0 <= i <= |b| ==> s.slots[i] == CountIn(b, Observed(steps), i))
            && s.sum == Sum(Observed(steps)) && s.count == CountFinite(Observed(steps))
  {
    RunKeepsInv(b, steps);
    HistoryIsObserved(b, steps);
    var h := After(b, steps).value.history;
    SummedAtRest(h, |h|);
    assert h[..|h|] == h;
  }

  // ----- what a reader sees -----

  /** What the observers have added to the sum in a run, in the order in which they did. */
  function Added(steps: seq<Step>): real {
    if steps == [] then 0.0
    else
      var prefix, last := steps[..|steps| - 1], steps[|steps| - 1];
      var values := Observed(prefix);
      Added(prefix) + if last.AddSum? && last.o < |values| && values[last.o].Finite? then values[last.o].r else 0.0
  }

  function Counted(steps: seq<Step>): nat {
    if steps == [] then 0 else Counted(steps[..|steps| - 1]) + if steps[|steps| - 1].AddCount? then 1 else 0
  }

  lemma {:induction false} TotalsAreAdded(b: seq<real>, steps: seq<Step>)
    requires Increasing(b) && After(b, steps).Some?
    ensures After(b, steps).value.sum == Added(steps) && After(b, steps).value.count == Counted(steps)
  {
    if steps != [] {
      TotalsAreAdded(b, steps[..|steps| - 1]);
      HistoryIsObserved(b, steps[..|steps| - 1]);
    }
  }

  /** The slots that a reader has read before a step. */
  function ReadSoFar(b: seq<real>, steps: seq<Step>, r: nat, k: nat): nat
    requires Increasing(b) && After(b, steps).Some? && k <= |steps|
  {
    PrefixRuns(b, steps, k);
    var s := After(b, steps[..k]).value;
    if r in s.readers then |s.readers[r].slots| else 0
  }

  lemma {:induction false} PrefixRuns(b: seq<real>, steps: seq<Step>, k: nat)
    requires Increasing(b) && After(b, steps).Some? && k <= |steps|
    ensures After(b, steps[..k]).Some?
    ensures k < |steps| ==> Enabled(After(b, steps[..k]).value, steps[k])
                            && After(b, steps[..k + 1]) == Some(Apply(b, After(b, steps[..k]).value, steps[k]))
  {
    if k == |steps| {
      assert steps[..k] == steps;
    } else {
      PrefixRuns(b, steps[..|steps| - 1], k);
      assert steps[..|steps| - 1][..k] == steps[..k];
      assert k + 1 < |steps| ==> steps[..|steps| - 1][..k + 1] == steps[..k + 1];
      assert k + 1 == |steps| ==> steps[..k + 1] == steps;
    }
  }

  /** What has been read stays as it was read. */
  predicate Keeps(before: Reader, after: Reader) {
    && before.slots <= after.slots
    && (before.sum.Some? ==> after.sum == before.sum)
    && (before.count.Some? ==> after.count == before.count && after.inFlight == before.inFlight)
  }

  lemma StepKeepsReadings(b: seq<real>, s: State, step: Step, r: nat)
    requires Increasing(b) && |s.slots| == |b| + 1 && Enabled(s, step) && r in s.readers
    ensures r in Apply(b, s, step).readers && Keeps(s.readers[r], Apply(b, s, step).readers[r])
  {
  }

  lemma {:induction false} ReadingsStay(b: seq<real>, steps: seq<Step>, r: nat, k: nat)
    requires Increasing(b) && After(b, steps).Some? && k <= |steps|
    requires After(b, steps[..k]).Some? && r in After(b, steps[..k]).value.readers
    ensures r in After(b, steps).value.readers
    ensures Keeps(After(b, steps[..k]).value.readers[r], After(b, steps).value.readers[r])
  {
    if k < |steps| {
      var prefix := steps[..|steps| - 1];
      assert prefix[..k] == steps[..k];
      ReadingsStay(b, prefix, r, k);
      StepKeepsReadings(b, After(b, prefix).value, steps[|steps| - 1], r);
    } else {
      assert steps[..k] == steps;
    }
  }

  /** A reader's slots, sum and count are each those of everything that had been added at its own step. */
  lemma ReadsWhatIsThere(b: seq<real>, steps: seq<Step>, r: nat, k: nat)
    requires Increasing(b) && After(b, steps).Some? && k < |steps|
    requires steps[k] == ReadSlot(r) || steps[k] == ReadSum(r) || steps[k] == ReadCount(r)
    ensures r in After(b, steps).value.readers
    ensures var (reader, before) := (After(b, steps).value.readers[r], steps[..k]);
            && (steps[k].ReadSlot? ==> var i := ReadSoFar(b, steps, r, k);
                  i < |reader.slots| && i <= |b| && reader.slots[i] == CountIn(b, Observed(before), i))
            && (steps[k].ReadSum? ==> reader.sum == Some(Added(before)))
            && (steps[k].ReadCount? ==> reader.count == Some(Counted(before)))
  {
    PrefixRuns(b, steps, k);
    RunKeepsInv(b, steps[..k]);
    HistoryIsObserved(b, steps[..k]);
    TotalsAreAdded(b, steps[..k]);
    ReadingsStay(b, steps, r, k + 1);
  }

  /** A run after `n` steps of which no observation began. */
  predicate Quiet(steps: seq<Step>, n: nat) {
    forall i :: n <= i < |steps| ==> !steps[i].AddSlot?
  }

  /** Reader `r` has read nothing but the totals as they are. */
  ghost predicate SeesNow(s: State, r: nat) {
    r in s.readers ==>
      var reader := s.readers[r];
      && reader.slots <= s.slots
      && (reader.sum.Some? ==> reader.slots == s.slots && reader.sum.value == s.sum)
      && (reader.count.Some? ==> reader.sum.Some? && reader.count.value == s.count)
  }

  lemma QuietStep(b: seq<real>, s: State, step: Step, r: nat)
    requires Increasing(b) && |s.slots| == |b| + 1 && Enabled(s, step) && !step.AddSlot?
    requires s.observers == map[] && SeesNow(s, r)
    ensures var s' := Apply(b, s, step);
            && s'.slots == s.slots && s'.sum == s.sum && s'.count == s.count && s'.observers == map[]
            && SeesNow(s', r)
  {
  }

  lemma {:induction false} QuietKeeps(b: seq<real>, steps: seq<Step>, n: nat, r: nat)
    requires Increasing(b) && After(b, steps).Some? && n <= |steps| && Quiet(steps, n)
    requires After(b, steps[..n]).Some?
    requires After(b, steps[..n]).value.observers == map[] && r !in After(b, steps[..n]).value.readers
    ensures var (s, s') := (After(b, steps[..n]).value, After(b, steps).value);
            && s'.slots == s.slots && s'.sum == s.sum && s'.count == s.count && s'.observers == map[]
            && SeesNow(s', r)
    ensures Observed(steps) == Observed(steps[..n])
  {
    if n == |steps| {
      assert steps[..n] == steps;
    } else {
      var prefix := steps[..|steps| - 1];
      assert prefix[..n] == steps[..n];
      QuietKeeps(b, prefix, n, r);
      QuietStep(b, After(b, prefix).value, steps[|steps| - 1], r);
    }
  }

  /** A read that starts with no observer in flight, and during which none begins, sees the slots, the sum and the count
      of all observations so far. */
  lemma QuietReadIsExact(b: seq<real>, steps: seq<Step>, n: nat, r: nat)
    requires Increasing(b) && After(b, steps).Some? && n <= |steps| && Quiet(steps, n)
    requires After(b, steps[..n]).Some?
    requires After(b, steps[..n]).value.observers == map[] && r !in After(b, steps[..n]).value.readers
    requires r in After(b, steps).value.readers && After(b, steps).value.readers[r].count.Some?
    ensures var (reader, h) := (After(b, steps).value.readers[r], Observed(steps[..n]));
            && |reader.slots| == |b| + 1
            && (forall i :: 0 <= i <= |b| ==> reader.slots[i] == CountIn(b, h, i))
            && reader.sum == Some(Sum(h)) && reader.count == Some(CountFinite(h))
  {
    QuietKeeps(b, steps, n, r);
    AtRestAsIfInTurn(b, steps);
  }

  lemma Extend(b: seq<real>, steps: seq<Step>, step: Step) returns (more: seq<Step>)
    requires Increasing(b) && After(b, steps).Some? && Enabled(After(b, steps).value, step)
    ensures After(b, more) == Some(Apply(b, After(b, steps).value, step))
  {
    more := steps + [step];
    assert more[..|steps|] == steps;
  }

  predicate Finished(steps: seq<Step>, r: nat) {
    After([], steps).Some? && r in After([], steps).value.readers && After([], steps).value.readers[r].count.Some?
  }

  /** A read overtaken by an observation has a slot total below its count. */
  lemma SlotsCanTrail(v: real) returns (steps: seq<Step>)
    ensures Finished(steps, 0)
    ensures var reader := After([], steps).value.readers[0]; Total(reader.slots) < reader.count.value
  {
    steps := Extend([], [], StartRead(0));
    steps := Extend([], steps, ReadSlot(0));
    steps := Extend([], steps, AddSlot(v));
    steps := Extend([], steps, AddSum(0));
    steps := Extend([], steps, AddCount(0));
    steps := Extend([], steps, ReadSum(0));
    steps := Extend([], steps, ReadCount(0));
    TotalOfNothing(1);
  }

  /** A read that overtakes an observation has a slot total above its count. */
  lemma SlotsCanLead(v: real) returns (steps: seq<Step>)
    ensures Finished(steps, 0)
    ensures var reader := After([], steps).value.readers[0]; reader.count.value < Total(reader.slots)
  {
    steps := Extend([], [], AddSlot(v));
    steps := Extend([], steps, StartRead(0));
    steps := Extend([], steps, ReadSlot(0));
    steps := Extend([], steps, ReadSum(0));
    steps := Extend([], steps, ReadCount(0));
  }
}
