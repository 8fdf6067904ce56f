/** The counters of the metrics registry (sf-metrics/src/inmemory: implementation.rs, counter.rs, common.rs). Handles
    alias shared cells and may be created at any time; what the registry answers follows from the log of calls. */
module CounterRegistry {
  import opened Bytes
  import opened Labels

  // ----- what a log of calls says -----

  /** A handle with these labels was created; an increment was made through a handle with these labels. */
  datatype CounterCall = Create(name: Name, key: LabelKey) | Add(name: Name, key: LabelKey, v: real)

  /** The sum of the non-negative increments. */
  function Total(log: seq<CounterCall>, name: Name, key: LabelKey): real {
    if log == [] then 0.0
    else
      var last := log[|log| - 1];
      Total(log[..|log| - 1], name, key)
      + if last.Add? && last.name == name && last.key == key && last.v >= 0.0 then last.v else 0.0
  }

  predicate Created(log: seq<CounterCall>, name: Name, key: LabelKey) {
    log != [] && (Created(log[..|log| - 1], name, key) || log[|log| - 1] == Create(name, key))
  }

  function ValueOf(log: seq<CounterCall>, name: Name, key: LabelKey): Option<real> {
    if Created(log, name, key) then Some(Total(log, name, key)) else None
  }

  lemma TotalNext(log: seq<CounterCall>, call: CounterCall, name: Name, key: LabelKey)
    ensures Total(log + [call], name, key) ==
            Total(log, name, key)
            + if call.Add? && call.name == name && call.key == key && call.v >= 0.0 then call.v else 0.0
    ensures Created(log + [call], name, key) <==> Created(log, name, key) || call == Create(name, key)
  {
    assert (log + [call])[..|log|] == log;
  }

  /** A counter never decreases, and never disappears. */
  lemma {:induction false} CountersNeverDecrease(log: seq<CounterCall>, more: seq<CounterCall>, name: Name, key: LabelKey)
    requires ValueOf(log, name, key).Some?
    ensures ValueOf(log + more, name, key).Some?
    ensures ValueOf(log, name, key).value <= ValueOf(log + more, name, key).value
  {
    if more == [] {
      assert log + more == log;
    } else {
      CountersNeverDecrease(log, more[..|more| - 1], name, key);
      TotalNext(log + more[..|more| - 1], more[|more| - 1], name, key);
      assert log + more == log + more[..|more| - 1] + [more[|more| - 1]];
    }
  }

  /** An increment under one list of labels is seen under another exactly when they are permutations. */
  lemma IncrementReachesPermutations(log: seq<CounterCall>, name: Name, l1: seq<Label>, l2: seq<Label>, v: real)
    requires Functional(l1) && v >= 0.0
    ensures Total(log + [Add(name, KeyOf(l1), v)], name, KeyOf(l2)) ==
            Total(log, name, KeyOf(l2)) + if multiset(l1) == multiset(l2) then v else 0.0
  {
    TotalNext(log, Add(name, KeyOf(l1), v), name, KeyOf(l2));
    KeyForIsKey(l1);
    KeyForIsKey(l2);
    KeyIsCanonical(l1, KeyFor(l1), l2, KeyFor(l2));
  }

  // ----- cells and handles -----

  class Cell {
    var value: real
    /** Where the cell is registered. */
    ghost const name: Name
    ghost const key: LabelKey

    constructor (ghost name: Name, ghost key: LabelKey)
      ensures value == 0.0 && this.name == name && this.key == key
    {
      this.name, this.key := name, key;
      value := 0.0;
    }
  }

  class CounterStorage {
    var data: map<LabelKey, Cell>
    ghost const name: Name

    constructor (ghost name: Name)
      ensures data == map[] && this.name == name
    {
      this.name := name;
      data := map[];
    }

    method GetOrCreateDefault(key: LabelKey, ghost m: InMemoryMetrics) returns (cell: Cell)
      requires m.CountersLinked() && m.CellsFit(m.counterLog) && this in m.storages
      requires forall n, k :: !m.Has(n, k) ==> Total(m.counterLog, n, k) == 0.0
      modifies this, m`cells
      ensures m.CountersLinked() && m.CellsFit(m.counterLog)
      ensures m.cells == old(m.cells) + {cell} && cell.name == name && cell.key == key
      ensures forall n, k :: m.Has(n, k) <==> old(m.Has(n, k)) || (n == name && k == key)
    {
      if key !in data {
        cell := new Cell(name, key);
        data := data[key := cell];
        m.cells := m.cells + {cell};
      }
      cell := data[key];
    }
  }

  class InMemoryCounter {
    const metrics: CounterStorage
    const value: Cell

    constructor (metrics: CounterStorage, key: LabelKey, ghost m: InMemoryMetrics)
      requires m.CountersValid() && metrics in m.storages
      modifies metrics, m`counterLog, m`cells
      ensures m.CountersValid() && m.HasCounter(this)
      ensures this.metrics == metrics && value.key == key
      ensures m.counterLog == old(m.counterLog) + [Create(metrics.name, key)]
      ensures old(m.cells) <= m.cells
    {
      var cell := metrics.GetOrCreateDefault(key, m);
      this.metrics, this.value := metrics, cell;
      new;
      m.LogCreate(metrics.name, key);
    }

    method Increment(ghost m: InMemoryMetrics)
      requires m.CountersValid() && m.HasCounter(this)
      modifies value, m`counterLog
      ensures m.CountersValid()
      ensures m.counterLog == old(m.counterLog) + [Add(value.name, value.key, 1.0)]
      ensures value.value == old(value.value) + 1.0
    {
      IncrementBy(1.0, m);
    }

    /** A negative amount is ignored. */
    method IncrementBy(v: real, ghost m: InMemoryMetrics)
      requires m.CountersValid() && m.HasCounter(this)
      modifies value, m`counterLog
      ensures m.CountersValid()
      ensures m.counterLog == old(m.counterLog) + [Add(value.name, value.key, v)]
      ensures value.value == old(value.value) + if v < 0.0 then 0.0 else v
    {
      TotalsAfter(m.counterLog, Add(value.name, value.key, v));
      m.counterLog := m.counterLog + [Add(value.name, value.key, v)];
      if v < 0.0 {
        return;
      }
      value.value := value.value + v;
    }

    method WithLabels(labels: seq<Label>, ghost m: InMemoryMetrics) returns (h: InMemoryCounter)
      requires m.CountersValid() && m.HasCounter(this)
      modifies metrics, m`counterLog, m`cells
      ensures m.CountersValid() && m.HasCounter(h) && old(m.cells) <= m.cells
      ensures h.metrics == metrics && h.value.key == KeyOf(labels)
      ensures m.counterLog == old(m.counterLog) + [Create(metrics.name, KeyOf(labels))]
    {
      h := new InMemoryCounter(metrics, KeyOf(labels), m);
    }

    method WithoutLabels(ghost m: InMemoryMetrics) returns (h: InMemoryCounter)
      requires m.CountersValid() && m.HasCounter(this)
      modifies metrics, m`counterLog, m`cells
      ensures m.CountersValid() && m.HasCounter(h) && old(m.cells) <= m.cells
      ensures h.metrics == metrics && h.value.key == NO_LABELS
      ensures m.counterLog == old(m.counterLog) + [Create(metrics.name, NO_LABELS)]
    {
      h := new InMemoryCounter(metrics, NO_LABELS, m);
    }
  }

  lemma TotalsAfter(log: seq<CounterCall>, call: CounterCall)
    ensures forall n, k :: Total(log + [call], n, k) ==
              Total(log, n, k)
              + if call.Add? && call.name == n && call.key == k && call.v >= 0.0 then call.v else 0.0
    ensures forall n, k :: Created(log + [call], n, k) <==> Created(log, n, k) || call == Create(n, k)
  {
    forall n, k {
      TotalNext(log, call, n, k);
    }
  }

  // ----- the registry -----

  class InMemoryMetrics {
    var counters: map<Name, CounterStorage>
    /** Every call made so far, and the storages and cells registered. */
    ghost var counterLog: seq<CounterCall>
    ghost var storages: set<CounterStorage>
    ghost var cells: set<Cell>

    constructor ()
      ensures CountersValid() && counterLog == []
    {
      counters, counterLog, storages, cells := map[], [], {}, {};
    }

    ghost predicate HasStorage(s: CounterStorage)
      reads `counters
    {
      s.name in counters && counters[s.name] == s
    }

    ghost predicate HasCell(c: Cell)
      reads `counters, storages, `storages
    {
      c.name in counters && counters[c.name] in storages
      && c.key in counters[c.name].data && counters[c.name].data[c.key] == c
    }

    ghost predicate HasCounter(h: InMemoryCounter)
      reads `storages, `cells
    {
      h.metrics in storages && h.value in cells && h.value.name == h.metrics.name
    }

    ghost predicate Has(name: Name, key: LabelKey)
      reads `counters, `storages, storages
    {
      name in counters && counters[name] in storages && key in counters[name].data
    }

    /** Every storage and every cell is registered once, under its own name and key. */
    ghost predicate CountersLinked()
      reads `counters, `storages, `cells, storages
    {
      && (forall n :: n in counters ==> counters[n] in storages && counters[n].name == n)
      && (forall s :: s in storages ==> HasStorage(s))
      && (forall s, k :: s in storages && k in s.data ==> s.data[k] in cells)
      && (forall s, k :: s in storages && k in s.data ==> s.data[k].name == s.name && s.data[k].key == k)
      && (forall c :: c in cells ==> HasCell(c))
    }

    ghost predicate CellsFit(log: seq<CounterCall>)
      reads `cells, cells
    {
      forall c :: c in cells ==> c.value == Total(log, c.name, c.key)
    }

    ghost predicate CountersValid()
      reads `counters, `counterLog, `storages, `cells, storages, cells
    {
      && CountersLinked()
      && CellsFit(counterLog)
      && (forall n, k :: Created(counterLog, n, k) <==> Has(n, k))
      && (forall n, k :: !Has(n, k) ==> Total(counterLog, n, k) == 0.0)
    }

    ghost method LogCreate(name: Name, key: LabelKey)
      requires CountersLinked() && CellsFit(counterLog)
      requires forall n, k :: Has(n, k) <==> Created(counterLog, n, k) || (n == name && k == key)
      requires forall n, k :: !Has(n, k) ==> Total(counterLog, n, k) == 0.0
      modifies `counterLog
      ensures CountersValid() && counterLog == old(counterLog) + [Create(name, key)]
    {
      TotalsAfter(counterLog, Create(name, key));
      counterLog := counterLog + [Create(name, key)];
    }

    method Counter(name: Name) returns (h: InMemoryCounter)
      requires CountersValid()
      modifies `counters, `counterLog, `storages, `cells, storages
      ensures CountersValid() && HasCounter(h) && old(cells) <= cells && old(storages) <= storages
      ensures h.value.name == name && h.value.key == NO_LABELS
      ensures counterLog == old(counterLog) + [Create(name, NO_LABELS)]
    {
      if name !in counters {
        var storage := new CounterStorage(name);
        counters, storages := counters[name := storage], storages + {storage};
      }
      h := new InMemoryCounter(counters[name], NO_LABELS, this);
    }

    method GetCounterValue(name: Name, labels: seq<Label>) returns (r: Option<real>)
      requires CountersValid()
      ensures r == ValueOf(counterLog, name, KeyOf(labels))
    {
      if name !in counters {
        return None;
      }
      var key := KeyOf(labels);
      if key !in counters[name].data {
        return None;
      }
      r := Some(counters[name].data[key].value);
    }
  }
}
