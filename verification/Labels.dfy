/** Label sets of metrics (sf-metrics/src/inmemory/common.rs): the canonical key and the printer. */
module Labels {
  import opened Bytes
  import opened Sorting

  type Label = (seq<u8>, seq<u8>)

  // ----- the canonical key -----

  predicate Leq(a: Label, b: Label) { Compare(a.0, b.0) != Greater }

  /** The labels in an order by key that a sort may leave them in; a sort that is not stable is free in how it
      arranges labels of one key. */
  ghost predicate IsKeyOf(key: seq<Label>, labels: seq<Label>) {
    multiset(key) == multiset(labels) && Ordered(Leq, key)
  }

  /** The key of a label list, as one sort would have it. */
  function KeyFor(labels: seq<Label>): seq<Label> { Sorted(Leq, labels) }

  lemma KeyForIsKey(labels: seq<Label>)
    ensures IsKeyOf(KeyFor(labels), labels)
  {
    forall a: Label, b: Label ensures Leq(a, b) || Leq(b, a) {
      CompareIsAntisymmetric(a.0, b.0);
    }
    forall a: Label, b: Label, c: Label | Leq(a, b) && Leq(b, c) ensures Leq(a, c) {
      CompareIsTransitive(a.0, b.0, c.0);
    }
    SortedIsOrdered(Leq, labels);
  }

  /** The keys of a sorted list are in byte order: of two different ones the lesser comes first. */
  lemma KeysInOrder(key: seq<Label>, labels: seq<Label>, i: nat, j: nat, k: nat)
    requires IsKeyOf(key, labels) && i < |key| && j < |key|
    requires var (a, b) := (key[i].0, key[j].0); k <= |a| && k < |b| && a[..k] == b[..k] && (k == |a| || a[k] < b[k])
    ensures i < j
  {
    CompareIsLexicographic(key[i].0, key[j].0, k);
    CompareIsAntisymmetric(key[i].0, key[j].0);
    CompareEqualIsEquality(key[i].0, key[j].0);
    assert !Leq(key[j], key[i]);
  }

  /** `LabelKey`. */
  datatype LabelKey = LabelKey(labels: seq<Label>)

  const NO_LABELS: LabelKey := LabelKey([])

  function KeyOf(labels: seq<Label>): LabelKey { LabelKey(KeyFor(labels)) }

  /** A handle without labels is one with the empty list of labels. */
  lemma NoLabelsIsNoLabels()
    ensures KeyOf([]) == NO_LABELS
  {
    KeyForIsKey([]);
    assert |multiset(KeyFor([]))| == 0;
  }

  /** The name of a metric. */
  datatype Name = Name(text: seq<u8>)

  /** No key carries two different values. */
  ghost predicate Functional(labels: seq<Label>) {
    forall a, b :: a in labels && b in labels && a.0 == b.0 ==> a == b
  }

  lemma {:induction false} OrderedIsUnique(k1: seq<Label>, k2: seq<Label>)
    requires Ordered(Leq, k1) && Ordered(Leq, k2) && multiset(k1) == multiset(k2) && Functional(k1)
    ensures k1 == k2
  {
    assert |k1| == |multiset(k1)| == |multiset(k2)| == |k2|;
    if k1 != [] {
      HeadIsLeast(k1, k2);
      HeadIsLeast(k2, k1);
      CompareIsAntisymmetric(k1[0].0, k2[0].0);
      CompareEqualIsEquality(k1[0].0, k2[0].0);
      assert k2[0] in multiset(k1);
      assert k1 == [k1[0]] + k1[1..] && k2 == [k2[0]] + k2[1..];
      assert multiset(k1[1..]) == multiset(k1) - multiset{k1[0]};
      assert multiset(k2[1..]) == multiset(k2) - multiset{k2[0]};
      OrderedIsUnique(k1[1..], k2[1..]);
    }
  }

  lemma HeadIsLeast(k1: seq<Label>, k2: seq<Label>)
    requires Ordered(Leq, k1) && multiset(k1) == multiset(k2) && k1 != [] && k2 != []
    ensures Leq(k1[0], k2[0])
  {
    assert k2[0] in multiset(k1);
    CompareEqualIsEquality(k1[0].0, k1[0].0);
  }

  lemma FunctionalFollows(k: seq<Label>, labels: seq<Label>)
    requires multiset(k) == multiset(labels) && Functional(labels)
    ensures Functional(k)
  {
    forall a | a in k ensures a in labels {
      assert a in multiset(k);
    }
  }

  /** However the sort arranges ties, label lists in which no key carries two values get equal keys exactly when
      one is a permutation of the other. */
  lemma KeyIsCanonical(l1: seq<Label>, k1: seq<Label>, l2: seq<Label>, k2: seq<Label>)
    requires IsKeyOf(k1, l1) && IsKeyOf(k2, l2) && Functional(l1)
    ensures k1 == k2 <==> multiset(l1) == multiset(l2)
  {
    if multiset(l1) == multiset(l2) {
      FunctionalFollows(k1, l1);
      OrderedIsUnique(k1, k2);
    }
  }

  /** A label list determines its key precisely when no key carries two different values. */
  lemma KeyIsDetermined(labels: seq<Label>)
    ensures Functional(labels) <==>
            forall k1, k2 :: IsKeyOf(k1, labels) && IsKeyOf(k2, labels) ==> k1 == k2
  {
    if Functional(labels) {
      forall k1, k2 | IsKeyOf(k1, labels) && IsKeyOf(k2, labels) ensures k1 == k2 {
        KeyIsCanonical(labels, k1, labels, k2);
      }
    } else {
      var a, b :| a in labels && b in labels && a.0 == b.0 && a != b;
      KeyForIsKey(labels);
      assert a in multiset(labels) && b in multiset(labels);
      var k' := TiesCanSwap(KeyFor(labels), a, b);
      assert IsKeyOf(KeyFor(labels), labels) && IsKeyOf(k', labels);
    }
  }

  lemma TiesCanSwap(k: seq<Label>, a: Label, b: Label) returns (k': seq<Label>)
    requires Ordered(Leq, k) && a in multiset(k) && b in multiset(k) && a.0 == b.0 && a != b
    ensures Ordered(Leq, k') && multiset(k') == multiset(k) && k' != k
  {
    var p :| 0 <= p < |k| && k[p] == a;
    var q :| 0 <= q < |k| && k[q] == b;
    k' := k[p := b][q := a];
    assert k'[p] == b;
    assert forall i :: 0 <= i < |k| ==> k'[i].0 == k[i].0;
  }

  // ----- the printer -----

  const QUOTE: u8 := '"' as int
  const COMMA: u8 := ',' as int
  const EQUALS: u8 := '=' as int
  const BACKSLASH: u8 := '\\' as int

  /** `str::replace` of one character. */
  function Replace(s: seq<u8>, c: u8, to: seq<u8>): seq<u8> {
    if s == [] then [] else (if s[0] == c then to else [s[0]]) + Replace(s[1..], c, to)
  }

  function Escape(v: seq<u8>): seq<u8> {
    Replace(Replace(v, BACKSLASH, [BACKSLASH, BACKSLASH]), QUOTE, [BACKSLASH, QUOTE])
  }

  /** Escaping character by character. */
  function EscapeOnce(v: seq<u8>): seq<u8> {
    if v == [] then []
    else (if v[0] == BACKSLASH || v[0] == QUOTE then [BACKSLASH, v[0]] else [v[0]]) + EscapeOnce(v[1..])
  }

  lemma ReplaceHead(x: u8, rest: seq<u8>, c: u8, to: seq<u8>)
    ensures Replace([x] + rest, c, to) == (if x == c then to else [x]) + Replace(rest, c, to)
  {
    assert ([x] + rest)[1..] == rest;
  }

  /** The two passes escape each character once. */
  lemma {:induction false} TwoPassesAreOne(v: seq<u8>)
    ensures Escape(v) == EscapeOnce(v)
  {
    if v != [] {
      TwoPassesAreOne(v[1..]);
      var tail := Replace(v[1..], BACKSLASH, [BACKSLASH, BACKSLASH]);
      if v[0] == BACKSLASH {
        ReplaceHead(BACKSLASH, tail, QUOTE, [BACKSLASH, QUOTE]);
        ReplaceHead(BACKSLASH, [BACKSLASH] + tail, QUOTE, [BACKSLASH, QUOTE]);
        assert [BACKSLASH] + ([BACKSLASH] + tail) == [BACKSLASH, BACKSLASH] + tail;
        assert Escape(v) == [BACKSLASH] + ([BACKSLASH] + Escape(v[1..]));
      } else {
        ReplaceHead(v[0], tail, QUOTE, [BACKSLASH, QUOTE]);
      }
    }
  }

  function FormatLabel(l: Label): seq<u8> {
    l.0 + [EQUALS, QUOTE] + Escape(l.1) + [QUOTE]
  }

  function FormatLabels(labels: seq<Label>): seq<u8> {
    if labels == [] then []
    else Join(seq(|labels|, i requires 0 <= i < |labels| => FormatLabel(labels[i])), COMMA)
  }

  /** A quoted value up to its closing quote, and what follows it. */
  function ParseValue(s: seq<u8>): Option<(seq<u8>, seq<u8>)> {
    if s == [] then None
    else if s[0] == QUOTE then Some(([], s[1..]))
    else if s[0] == BACKSLASH then
      if |s| == 1 then None
      else match ParseValue(s[2..])
        case Some((v, rest)) => Some(([s[1]] + v, rest))
        case None => None
    else match ParseValue(s[1..])
      case Some((v, rest)) => Some(([s[0]] + v, rest))
      case None => None
  }

  lemma {:induction false} ParseValueUndoes(v: seq<u8>, rest: seq<u8>)
    ensures ParseValue(EscapeOnce(v) + [QUOTE] + rest) == Some((v, rest))
  {
    var s := EscapeOnce(v) + [QUOTE] + rest;
    if v == [] {
      assert s[1..] == rest;
    } else {
      ParseValueUndoes(v[1..], rest);
      var tail := EscapeOnce(v[1..]) + [QUOTE] + rest;
      if v[0] == BACKSLASH || v[0] == QUOTE {
        assert s[0] == BACKSLASH && s[1] == v[0] && s[2..] == tail;
      } else {
        assert s[0] == v[0] && s[1..] == tail;
      }
      assert [v[0]] + v[1..] == v;
    }
  }

  lemma {:induction false} ParseValueShrinks(s: seq<u8>)
    requires ParseValue(s).Some?
    ensures |ParseValue(s).value.1| < |s|
  {
    if s[0] != QUOTE {
      ParseValueShrinks(if s[0] == BACKSLASH then s[2..] else s[1..]);
    }
  }

  /** Where, from `i` on, the first '=' with a quote right behind it is, or the length. */
  function FirstMark(s: seq<u8>, i: nat): (k: nat)
    requires i <= |s|
    ensures i <= k <= |s| && (k < |s| ==> IsMark(s, k))
    ensures forall j :: i <= j < k ==> !IsMark(s, j)
    decreases |s| - i
  {
    if i == |s| || IsMark(s, i) then i else FirstMark(s, i + 1)
  }

  predicate IsMark(s: seq<u8>, i: int) { 0 <= i && i + 1 < |s| && s[i] == EQUALS && s[i + 1] == QUOTE }

  predicate HasMark(s: seq<u8>) { exists i :: 0 <= i < |s| && IsMark(s, i) }

  /** A non-empty list of labels. */
  function ParseSome(s: seq<u8>): Option<seq<Label>>
    decreases |s|
  {
    var k := FirstMark(s, 0);
    if k == |s| then None
    else match ParseValue(s[k + 2..])
      case None => None
      case Some((v, rest)) =>
        ParseValueShrinks(s[k + 2..]);
        if rest == [] then Some([(s[..k], v)])
        else if rest[0] != COMMA then None
        else Push((s[..k], v), ParseSome(rest[1..]))
  }

  function Push(l: Label, more: Option<seq<Label>>): Option<seq<Label>> {
    if more.Some? then Some([l] + more.value) else None
  }

  function ParseLabels(s: seq<u8>): Option<seq<Label>> {
    if s == [] then Some([]) else ParseSome(s)
  }

  predicate PlainKeys(labels: seq<Label>) {
    forall i :: 0 <= i < |labels| ==> !HasMark(labels[i].0)
  }

  lemma {:induction false} ParsedKeysArePlain(s: seq<u8>)
    requires ParseSome(s).Some?
    ensures PlainKeys(ParseSome(s).value)
    decreases |s|
  {
    var k := FirstMark(s, 0);
    assert forall i :: 0 <= i < k ==> (IsMark(s[..k], i) ==> IsMark(s, i));
    var (v, rest) := ParseValue(s[k + 2..]).value;
    ParseValueShrinks(s[k + 2..]);
    if rest != [] {
      ParsedKeysArePlain(rest[1..]);
    }
  }

  /** The printed list, label by label. */
  function Printed(labels: seq<Label>): seq<u8>
    requires labels != []
  {
    if |labels| == 1 then FormatLabel(labels[0])
    else FormatLabel(labels[0]) + ([COMMA] + Printed(labels[1..]))
  }

  lemma {:induction false} FormatIsPrinted(labels: seq<Label>)
    requires labels != []
    ensures FormatLabels(labels) == Printed(labels)
  {
    var parts := seq(|labels|, i requires 0 <= i < |labels| => FormatLabel(labels[i]));
    if |labels| > 1 {
      var tail := labels[1..];
      FormatIsPrinted(tail);
      assert parts[1..] == seq(|tail|, i requires 0 <= i < |tail| => FormatLabel(tail[i]));
      assert parts[0] + [COMMA] + Printed(tail) == parts[0] + ([COMMA] + Printed(tail));
    }
  }

  /** A printed label, and whatever follows it, is taken apart at its first '="'. */
  lemma LabelTakenApart(l: Label, rest: seq<u8>)
    requires !HasMark(l.0)
    ensures var s := FormatLabel(l) + rest;
            && FirstMark(s, 0) == |l.0| && |l.0| + 1 < |s|
            && s[..|l.0|] == l.0 && ParseValue(s[|l.0| + 2..]) == Some((l.1, rest))
  {
    var s := FormatLabel(l) + rest;
    TwoPassesAreOne(l.1);
    ParseValueUndoes(l.1, rest);
    assert s[|l.0| + 2..] == EscapeOnce(l.1) + [QUOTE] + rest;
    assert s[..|l.0|] == l.0;
    MarkFound(s, |l.0|);
  }

  /** The mark behind a key without one is the first: not even the key's last '=' makes one with the '=' behind it. */
  lemma MarkFound(s: seq<u8>, n: nat)
    requires IsMark(s, n) && !HasMark(s[..n])
    ensures FirstMark(s, 0) == n
  {
    forall i | 0 <= i < n ensures !IsMark(s, i) {
      assert !IsMark(s[..n], i);
    }
  }

  lemma ParseLast(l: Label)
    requires !HasMark(l.0)
    ensures ParseSome(FormatLabel(l)) == Some([l])
  {
    LabelTakenApart(l, []);
    assert FormatLabel(l) + [] == FormatLabel(l) && l == (l.0, l.1);
  }

  /** One step of the parser. */
  lemma ParseSomeUnfolds(s: seq<u8>, l: Label, more: seq<u8>)
    requires FirstMark(s, 0) == |l.0| && |l.0| + 1 < |s| && s[..|l.0|] == l.0
    requires ParseValue(s[|l.0| + 2..]) == Some((l.1, [COMMA] + more))
    ensures ParseSome(s) == Push(l, ParseSome(more))
  {
    assert ([COMMA] + more)[1..] == more;
  }

  lemma ParseNext(l: Label, rest: seq<u8>)
    requires !HasMark(l.0)
    ensures ParseSome(FormatLabel(l) + ([COMMA] + rest)) == Push(l, ParseSome(rest))
  {
    LabelTakenApart(l, [COMMA] + rest);
    ParseSomeUnfolds(FormatLabel(l) + ([COMMA] + rest), l, rest);
  }

  lemma {:induction false} ParseUndoesPrinted(labels: seq<Label>)
    requires labels != [] && PlainKeys(labels)
    ensures ParseSome(Printed(labels)) == Some(labels)
  {
    if |labels| == 1 {
      ParseLast(labels[0]);
      assert labels == [labels[0]];
    } else {
      ParseUndoesPrinted(labels[1..]);
      ParseNext(labels[0], Printed(labels[1..]));
      assert labels == [labels[0]] + labels[1..];
    }
  }

  /** The printed form can be parsed back, whatever the values, precisely when no key contains '="'. */
  lemma PrinterCanBeUndone(labels: seq<Label>)
    ensures ParseLabels(FormatLabels(labels)) == Some(labels) <==> PlainKeys(labels)
  {
    if labels != [] {
      FormatIsPrinted(labels);
      assert Printed(labels) != [];
      if PlainKeys(labels) {
        ParseUndoesPrinted(labels);
      } else if ParseSome(FormatLabels(labels)).Some? {
        ParsedKeysArePlain(FormatLabels(labels));
      }
    }
  }

  /** So distinct label lists with plain keys never print alike. */
  lemma PrinterIsInjective(l1: seq<Label>, l2: seq<Label>)
    requires PlainKeys(l1) && PlainKeys(l2) && FormatLabels(l1) == FormatLabels(l2)
    ensures l1 == l2
  {
    PrinterCanBeUndone(l1);
    PrinterCanBeUndone(l2);
  }

  /** Keys are not escaped: with '="' in one, two different lists do print alike. */
  lemma KeysAreNotEscaped()
    ensures exists l1: seq<Label>, l2: seq<Label> :: l1 != l2 && FormatLabels(l1) == FormatLabels(l2)
  {
    var a, b, x: seq<u8> := [97], [98], [120];
    var l1: seq<Label> := [(a, x), (b, x)];
    var l2: seq<Label> := [(FormatLabel((a, x)) + [COMMA] + b, x)];
    FormatIsPrinted(l1);
    FormatIsPrinted(l2);
    assert Printed(l1) == Printed(l2);
  }

  lemma EscapeSpecial(c: u8, v: seq<u8>)
    ensures Escape([c] + v) == (if c == QUOTE || c == BACKSLASH then [BACKSLASH, c] else [c]) + Escape(v)
  {
    TwoPassesAreOne([c] + v);
    TwoPassesAreOne(v);
    assert ([c] + v)[1..] == v;
  }

  lemma EscapedExample()
    ensures Escape(Ascii("x\"y\\")) == Ascii("x\\\"y\\\\")
  {
    EscapeSpecial('x' as int, Ascii("\"y\\"));
    EscapeSpecial(QUOTE, Ascii("y\\"));
    EscapeSpecial('y' as int, Ascii("\\"));
    EscapeSpecial(BACKSLASH, []);
    assert [BACKSLASH] + [] == Ascii("\\") && ['y' as int] + Ascii("\\") == Ascii("y\\");
    assert [QUOTE] + Ascii("y\\") == Ascii("\"y\\") && ['x' as int] + Ascii("\"y\\") == Ascii("x\"y\\");
  }

  /** `a="x\"y\\",b="z"` is what prints for the values `x"y\` and `z`. */
  lemma PrintedExample()
    ensures FormatLabels([(Ascii("a"), Ascii("x\"y\\")), (Ascii("b"), Ascii("z"))]) == Ascii("a=\"x\\\"y\\\\\",b=\"z\"")
  {
    var a, b: Label := (Ascii("a"), Ascii("x\"y\\")), (Ascii("b"), Ascii("z"));
    EscapedExample();
    EscapeSpecial('z' as int, []);
    assert ['z' as int] + [] == Ascii("z");
    FormatIsPrinted([a, b]);
    assert [a, b][1..] == [b];
    assert FormatLabel(a) == Ascii("a=\"x\\\"y\\\\\"");
    assert FormatLabel(b) == Ascii("b=\"z\"");
  }
}
