/** The histograms of the metrics registry (sf-metrics/src/inmemory: implementation.rs, histogram.rs, common.rs):
    instances shared by handles, observations, timers. */
module HistogramRegistry {
  import opened Bytes
  import opened Labels
  import opened Histograms

  // ----- instances and handles -----

  class HistogramAtomics {
    var bucketCounts: seq<nat>
    var sum: real
    var count: nat
    /** Everything observed, in order, and the storage that holds the instance. */
    ghost var history: seq<F64>
    ghost const home: HistogramStorage

    constructor (numBuckets: nat, ghost home: HistogramStorage)
      requires numBuckets == |home.buckets|
      ensures Fits() && history == [] && this.home == home
    {
      bucketCounts, sum, count, history := seq(numBuckets + 1, _ => 0), 0.0, 0, [];
      this.home := home;
    }

    /** Slots, sum and count are those of the history. */
    ghost predicate Fits()
      reads this
    {
      && |bucketCounts| == |home.buckets| + 1
      && (forall i :: 0 <= i <= |home.buckets| ==> bucketCounts[i] == CountIn(home.buckets, history, i))
      && sum == Sum(history)
      && count == CountFinite(history)
    }
  }

  /** The bounds fixed at creation, and the instances created so far. */
  class HistogramStorage {
    const buckets: seq<real>
    var data: map<LabelKey, HistogramAtomics>
    /** The name it is registered under, and the bounds given then. */
    ghost const name: Name
    ghost const given: seq<Bound>
    /** The label key of every handle created on this storage, in order. */
    ghost var created: seq<LabelKey>

    constructor (input: Option<seq<Bound>>, ghost name: Name)
      ensures input.Some? ==> given == input.value
      ensures Built() && given == Given(input) && this.name == name && data == map[] && created == []
    {
      var b := NewBuckets(input);
      this.buckets, this.given, this.name, data, created := b, Given(input), name, map[], [];
    }

    ghost predicate Built() { IsNormalised(buckets, given) }

    /** Different keys have different instances, all of them counting by this storage's buckets; a key has one exactly if
        a handle with it was ever created. */
    ghost predicate Linked()
      reads this
    {
      && (forall k :: k in data ==> data[k].home == this)
      && (forall k, l :: k in data && l in data && data[k] == data[l] ==> k == l)
      && (forall k :: k in data <==> k in created)
    }

    ghost predicate AllFit()
      reads this, data.Values
    {
      forall k :: k in data ==> data[k].Fits()
    }

    method GetOrCreate(key: LabelKey) returns (a: HistogramAtomics)
      requires Linked()
      modifies this
      ensures Linked() && data == old(data)[key := a] && created == old(created) + [key]
      ensures if key in old(data) then a == old(data[key]) else fresh(a) && a.Fits() && a.history == []
    {
      if key !in data {
        a := new HistogramAtomics(|buckets|, this);
        data := data[key := a];
      }
      a := data[key];
      created := created + [key];
    }
  }

  class InMemoryHistogram {
    const metrics: HistogramStorage
    const atomics: HistogramAtomics
    /** The labels it was created with. */
    ghost const key: LabelKey

    ghost predicate Valid()
      reads atomics
    {
      Increasing(metrics.buckets) && atomics.home == metrics && atomics.Fits()
    }

    /** Its storage leads to its instance; nothing a storage does later changes that. */
    ghost predicate Linked()
      reads metrics
    {
      key in metrics.data && metrics.data[key] == atomics
    }

    constructor (metrics: HistogramStorage, key: LabelKey)
      requires metrics.Linked()
      modifies metrics
      ensures this.metrics == metrics && this.key == key && Linked()
      ensures metrics.Linked() && metrics.data == old(metrics.data)[key := atomics]
      ensures metrics.created == old(metrics.created) + [key]
      ensures if key in old(metrics.data) then atomics == old(metrics.data[key])
              else fresh(atomics) && atomics.Fits() && atomics.history == []
    {
      var a := metrics.GetOrCreate(key);
      this.metrics, this.atomics, this.key := metrics, a, key;
    }

    /** The branch for a slot out of range is never taken. */
    method Observe(v: F64)
      requires Valid()
      modifies atomics
      ensures Valid() && atomics.history == old(atomics.history) + [v]
      ensures v.Finite? ==>
                && atomics.sum == old(atomics.sum) + v.r && atomics.count == old(atomics.count) + 1
                && |atomics.bucketCounts| == |old(atomics.bucketCounts)|
                && forall i: nat :: i <= |metrics.buckets| ==>
                     atomics.bucketCounts[i] == old(atomics.bucketCounts[i]) + if InSlot(metrics.buckets, i, v.r) then 1 else 0
      ensures !v.Finite? ==> atomics.sum == old(atomics.sum) && atomics.count == old(atomics.count)
                             && atomics.bucketCounts == old(atomics.bucketCounts)
    {
      ghost var b, h := metrics.buckets, atomics.history;
      assert (h + [v])[..|h|] == h;
      atomics.history := h + [v];
      if !v.Finite? {
        return;
      }
      var found, slot := FindSlot(metrics.buckets, v.r);
      if slot < |atomics.bucketCounts| {
        atomics.bucketCounts := atomics.bucketCounts[slot := atomics.bucketCounts[slot] + 1];
      } else {
        assert false;
      }
      forall i: nat | i <= |b| ensures InSlot(b, i, v.r) <==> i == slot {
        SlotIsUnique(b, v.r, i, slot);
      }
      atomics.sum := atomics.sum + v.r;
      atomics.count := atomics.count + 1;
    }

    method WithLabels(labels: seq<Label>) returns (h: InMemoryHistogram)
      requires metrics.Linked()
      modifies metrics
      ensures h.metrics == metrics && h.key == KeyOf(labels) && h.Linked() && metrics.Linked()
      ensures metrics.created == old(metrics.created) + [KeyOf(labels)]
      ensures metrics.data == old(metrics.data)[KeyOf(labels) := h.atomics]
      ensures if KeyOf(labels) in old(metrics.data) then h.atomics == old(metrics.data[KeyOf(labels)])
              else fresh(h.atomics) && h.atomics.Fits() && h.atomics.history == []
    {
      h := new InMemoryHistogram(metrics, KeyOf(labels));
    }

    method WithoutLabels() returns (h: InMemoryHistogram)
      requires metrics.Linked()
      modifies metrics
      ensures h.metrics == metrics && h.key == NO_LABELS && h.Linked() && metrics.Linked()
      ensures metrics.created == old(metrics.created) + [NO_LABELS]
      ensures metrics.data == old(metrics.data)[NO_LABELS := h.atomics]
      ensures if NO_LABELS in old(metrics.data) then h.atomics == old(metrics.data[NO_LABELS])
              else fresh(h.atomics) && h.atomics.Fits() && h.atomics.history == []
    {
      h := new InMemoryHistogram(metrics, NO_LABELS);
    }
  }

  /** An observation through any handle leaves every instance of the registry fit. */
  method ObserveRegistered(m: InMemoryMetrics, h: InMemoryHistogram, v: F64)
    requires m.Valid() && m.InstancesFit() && h.Valid()
    modifies h.atomics
    ensures m.Valid() && m.InstancesFit() && h.Valid()
    ensures h.atomics.history == old(h.atomics.history) + [v]
  {
    h.Observe(v);
  }

  // ----- timers -----

  /** The time elapsed at a call is an argument of it. */
  class InMemoryHistogramTimer {
    const histogram: InMemoryHistogram
    var observed: bool

    constructor (histogram: InMemoryHistogram)
      ensures this.histogram == histogram && !observed
    {
      this.histogram := histogram;
      observed := false;
    }

    /** Both `observe_duration` and `drop`. */
    method DoObserve(elapsed: real)
      requires histogram.Valid()
      modifies this, histogram.atomics
      ensures histogram.Valid() && observed
      ensures histogram.atomics.history ==
              old(histogram.atomics.history) + if old(observed) then [] else [Finite(elapsed)]
    {
      if !observed {
        histogram.Observe(Finite(elapsed));
        observed := true;
      }
    }
  }

  /** A timer records once: at its first explicit observation if there is one, else when dropped. */
  method RunTimer(histogram: InMemoryHistogram, explicit: seq<real>, dropped: real)
    requires histogram.Valid()
    modifies histogram.atomics
    ensures histogram.Valid()
    ensures histogram.atomics.history ==
            old(histogram.atomics.history) + [Finite(if explicit == [] then dropped else explicit[0])]
  {
    var timer := new InMemoryHistogramTimer(histogram);
    for i := 0 to |explicit|
      invariant histogram.Valid() && timer.histogram == histogram && timer.observed == (i > 0)
      invariant histogram.atomics.history ==
                old(histogram.atomics.history) + if i == 0 then [] else [Finite(explicit[0])]
    {
      timer.DoObserve(explicit[i]);
    }
    timer.DoObserve(dropped);
  }

  // ----- the registry -----

  class InMemoryMetrics {
    var histograms: map<Name, HistogramStorage>
    /** The bounds given, or taken by default, when each name was first registered. */
    ghost var first: map<Name, seq<Bound>>

    constructor ()
      ensures Valid() && InstancesFit() && first == map[]
    {
      histograms, first := map[], map[];
    }

    /** Every instance keeps its invariant. */
    ghost predicate InstancesFit()
      reads `histograms, histograms.Values
      reads set n, k | n in histograms && k in histograms[n].data :: histograms[n].data[k]
    {
      forall n :: n in histograms ==> FitUnder(n)
    }

    ghost predicate FitUnder(name: Name)
      requires name in histograms
      reads `histograms, histograms[name], histograms[name].data.Values
    {
      histograms[name].AllFit()
    }

    /** The storage of a name is its own, with the buckets of the first registration. */
    ghost predicate Holds(name: Name)
      requires name in histograms
      reads this, histograms[name]
    {
      var storage := histograms[name];
      storage.name == name && name in first && storage.given == first[name] && storage.Built() && storage.Linked()
    }

    ghost predicate Valid()
      reads this, histograms.Values
    {
      first.Keys == histograms.Keys && forall n :: n in histograms ==> Holds(n)
    }

    method EnsureStorage(name: Name, buckets: Option<seq<Bound>>)
      requires Valid() && InstancesFit()
      modifies this
      ensures Valid() && InstancesFit() && name in histograms
      ensures name in old(first) ==> first == old(first) && histograms == old(histograms)
      ensures name !in old(first) && buckets.Some? ==> first[name] == buckets.value
      ensures name !in old(first) ==> first == old(first)[name := Given(buckets)] && fresh(histograms[name])
                                      && histograms == old(histograms)[name := histograms[name]]
                                      && histograms[name].data == map[] && histograms[name].created == []
    {
      hide Given;
      if name in histograms {
        return;
      }
      var storage := new HistogramStorage(buckets, name);
      histograms, first := histograms[name := storage], first[name := Given(buckets)];
      assert histograms[name].data == map[] && Holds(name) && FitUnder(name);
      forall n | n in histograms && n != name ensures histograms[n] == old(histograms)[n] && Holds(n) && FitUnder(n) {
        assert old(Holds(n)) && old(FitUnder(n));
      }
    }

    /** `InMemoryHistogram::new` on a registered storage. */
    method HandleFor(name: Name) returns (h: InMemoryHistogram)
      requires Valid() && InstancesFit() && name in histograms
      modifies histograms[name]
      ensures Valid() && InstancesFit() && h.metrics == histograms[name] && h.key == NO_LABELS && h.Linked()
      ensures h.metrics.created == old(histograms[name].created) + [NO_LABELS]
      ensures if NO_LABELS in old(histograms[name].data) then h.atomics == old(histograms[name].data[NO_LABELS])
              else fresh(h.atomics) && h.atomics.history == []
    {
      h := new InMemoryHistogram(histograms[name], NO_LABELS);
      assert Holds(name) && FitUnder(name);
      forall n | n in histograms && n != name ensures histograms[n] != histograms[name] && Holds(n) && FitUnder(n) {
        assert old(Holds(n)) && old(Holds(name)) && old(FitUnder(n));
      }
    }

    /** Later registrations change no bounds, and reach the same instance. */
    method Histogram(name: Name, buckets: Option<seq<Bound>>) returns (h: InMemoryHistogram)
      requires Valid() && InstancesFit()
      modifies this, if name in histograms then {histograms[name]} else {}
      ensures Valid() && InstancesFit() && name in histograms && h.metrics == histograms[name]
      ensures name in old(first) ==> first == old(first) && histograms == old(histograms)
      ensures name !in old(first) && buckets.Some? ==> first[name] == buckets.value
      ensures name !in old(first) ==> first == old(first)[name := Given(buckets)] && fresh(h.metrics)
                                      && histograms == old(histograms)[name := h.metrics]
      ensures h.key == NO_LABELS && h.Linked()
      ensures h.metrics.created == (if name in old(histograms) then old(histograms[name].created) else []) + [NO_LABELS]
      ensures if name in old(histograms) && NO_LABELS in old(histograms[name].data)
              then h.atomics == old(histograms[name].data[NO_LABELS])
              else fresh(h.atomics) && h.atomics.history == []
    {
      EnsureStorage(name, buckets);
      h := HandleFor(name);
    }

    /** A handle of this registry, under that name. */
    ghost predicate HasHistogram(name: Name, h: InMemoryHistogram)
      reads `histograms, h.metrics
    {
      name in histograms && histograms[name] == h.metrics && h.Linked()
    }

    /** Handles share an instance exactly if they are of one name and one set of labels. */
    lemma HandlesShare(name1: Name, h1: InMemoryHistogram, name2: Name, h2: InMemoryHistogram)
      requires Valid() && HasHistogram(name1, h1) && HasHistogram(name2, h2)
      ensures h1.atomics == h2.atomics <==> name1 == name2 && h1.key == h2.key
    {
      assert Holds(name1) && Holds(name2);
    }

    /** The bounds of the first registration, and the counts, sum and total of every observation made through any
        handle with these labels. */
    method GetHistogramValues(name: Name, labels: seq<Label>) returns (r: Option<(seq<real>, seq<nat>, real, nat)>)
      requires Valid() && InstancesFit()
      ensures r.Some? <==> name in first && KeyOf(labels) in histograms[name].created
      ensures r.Some? ==>
                var h := histograms[name].data[KeyOf(labels)].history;
                && IsNormalised(r.value.0, first[name])
                && |r.value.1| == |r.value.0| + 1
                && (forall i :: 0 <= i <= |r.value.0| ==> r.value.1[i] == CountIn(r.value.0, h, i))
                && r.value.2 == Sum(h) && r.value.3 == CountFinite(h)
    {
      if name !in histograms {
        return None;
      }
      var key := KeyOf(labels);
      assert Holds(name);
      if key !in histograms[name].data {
        return None;
      }
      var a := histograms[name].data[key];
      r := Some((histograms[name].buckets, a.bucketCounts, a.sum, a.count));
    }
  }
}
