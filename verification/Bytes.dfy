/** Bytes, outcomes and the order of byte strings, shared by all the other modules.
    A Rust string is the sequence of its UTF-8 bytes. */
module Bytes {
  type u8 = x: int | 0 <= x < 256

  /** The bytes of ASCII text. */
  function Ascii(s: string): (r: seq<u8>)
    requires forall i :: 0 <= i < |s| ==> s[i] as int < 128
    ensures |r| == |s|
  {
    seq(|s|, i requires 0 <= i < |s| => s[i] as int)
  }

  datatype Option<+T> = None | Some(value: T)

  /** The three ways a Rust call can end: a value, an error, or a panic. */
  datatype Outcome<+T, +E> = Ok(value: T) | Err(error: E) | Panicked

  function Zeros(n: nat): (r: seq<u8>)
    ensures |r| == n
    ensures forall i :: 0 <= i < n ==> r[i] == 0
  {
    seq(n, _ => 0)
  }

  ghost predicate NoDuplicates<T>(s: seq<T>) {
    forall i, j :: 0 <= i < j < |s| ==> s[i] != s[j]
  }

  /** The first index of `c`, or the length. */
  function IndexOf(s: seq<u8>, c: u8): (k: nat)
    ensures k <= |s|
    ensures k < |s| ==> s[k] == c
    ensures forall i :: 0 <= i < k ==> s[i] != c
  {
    if s == [] || s[0] == c then 0 else 1 + IndexOf(s[1..], c)
  }

  function Join(parts: seq<seq<u8>>, c: u8): seq<u8>
    requires parts != []
  {
    if |parts| == 1 then parts[0] else parts[0] + [c] + Join(parts[1..], c)
  }

  datatype Ordering = Less | Equal | Greater

  /** The order of slices: first difference decides, a proper prefix comes first. */
  function Compare(a: seq<u8>, b: seq<u8>): Ordering {
    if a == [] then (if b == [] then Equal else Less)
    else if b == [] then Greater
    else if a[0] < b[0] then Less
    else if a[0] > b[0] then Greater
    else Compare(a[1..], b[1..])
  }

  lemma {:induction false} CompareEqualIsEquality(a: seq<u8>, b: seq<u8>)
    ensures Compare(a, b) == Equal <==> a == b
  {
    if a == [] || b == [] {
    } else if a[0] == b[0] {
      CompareEqualIsEquality(a[1..], b[1..]);
      assert a == [a[0]] + a[1..] && b == [b[0]] + b[1..];
    }
  }

  lemma {:induction false} CompareIsAntisymmetric(a: seq<u8>, b: seq<u8>)
    ensures Compare(a, b) == Less <==> Compare(b, a) == Greater
  {
    if a != [] && b != [] && a[0] == b[0] {
      CompareIsAntisymmetric(a[1..], b[1..]);
    }
  }

  /** The first difference decides, and a proper prefix comes first. */
  lemma {:induction false} CompareIsLexicographic(a: seq<u8>, b: seq<u8>, k: nat)
    requires k <= |a| && k < |b| && a[..k] == b[..k] && (k == |a| || a[k] < b[k])
    ensures Compare(a, b) == Less
  {
    if k > 0 {
      assert a[0] == a[..k][0] == b[..k][0];
      assert a[1..][..k - 1] == a[..k][1..] && b[1..][..k - 1] == b[..k][1..];
      CompareIsLexicographic(a[1..], b[1..], k - 1);
    }
  }

  lemma {:induction false} CompareIsTransitive(a: seq<u8>, b: seq<u8>, c: seq<u8>)
    requires Compare(a, b) != Greater && Compare(b, c) != Greater
    ensures Compare(a, c) != Greater
    ensures Compare(a, c) == Equal ==> Compare(a, b) == Equal && Compare(b, c) == Equal
  {
    if a != [] && b != [] && c != [] && a[0] == b[0] == c[0] {
      CompareIsTransitive(a[1..], b[1..], c[1..]);
    }
  }
}
