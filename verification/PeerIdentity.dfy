/** Peer identifiers (sf-peer-id): hexadecimal text, length-prefixed binary, equality, order and hash.
    `S` is the capacity, the const parameter of the source's type. */
module PeerIdentity {
  import opened Bytes

  datatype FixedSizePeerID = FixedSizePeerID(size: u8, bytes: seq<u8>)

  type PeerID = FixedSizePeerID

  const PEER_ID_CAPACITY: nat := 32

  datatype Error =
    | InvalidLength(expected: nat, actual: nat)
    | InvalidHexEncoding(c: u8, index: nat)
    | UnexpectedEof
    | InvalidVarint

  /** What every constructor establishes for capacities up to 255: unused bytes are zero. */
  ghost predicate Valid(id: FixedSizePeerID, S: nat) {
    && |id.bytes| == S
    && id.size <= S
    && forall i :: id.size <= i < S ==> id.bytes[i] == 0
  }

  function Used(id: FixedSizePeerID): seq<u8>
    requires id.size <= |id.bytes|
  {
    id.bytes[..id.size]
  }

  // ----- hexadecimal text -----

  function HexValue(c: u8): Option<u8> {
    if '0' as int <= c <= '9' as int then Some(c - '0' as int)
    else if 'a' as int <= c <= 'f' as int then Some(c - 'a' as int + 10)
    else if 'A' as int <= c <= 'F' as int then Some(c - 'A' as int + 10)
    else None
  }

  function HexDigit(n: u8): (c: u8)
    requires n < 16
    ensures HexValue(c) == Some(n)
  {
    if n < 10 then '0' as int + n else 'a' as int + (n - 10)
  }

  predicate IsHex(c: u8) { HexValue(c).Some? }

  ghost predicate AllHex(s: seq<u8>) { forall i :: 0 <= i < |s| ==> IsHex(s[i]) }

  /** `k` is the first character that is not a hexadecimal digit. */
  ghost predicate FirstBad(s: seq<u8>, k: nat) {
    k < |s| && !IsHex(s[k]) && forall i :: 0 <= i < k ==> IsHex(s[i])
  }

  /** The value of hexadecimal text taken two characters at a time; `index` is where `s` starts.
      A lone last digit makes the source index past its chunk. */
  function ParseHex(s: seq<u8>, index: nat): Outcome<seq<u8>, Error> {
    if s == [] then Ok([])
    else if !IsHex(s[0]) then Err(InvalidHexEncoding(s[0], index))
    else if |s| == 1 then Panicked
    else if !IsHex(s[1]) then Err(InvalidHexEncoding(s[1], index + 1))
    else match ParseHex(s[2..], index + 2)
      case Ok(rest) => Ok([ByteAt(s, 0)] + rest)
      case other => other
  }

  /** The byte written by the characters 2k and 2k + 1. */
  function ByteAt(s: seq<u8>, k: nat): u8
    requires 2 * k + 1 < |s| && IsHex(s[2 * k]) && IsHex(s[2 * k + 1])
  {
    HexValue(s[2 * k]).value * 16 + HexValue(s[2 * k + 1]).value
  }

  lemma {:induction false} ParseHexCases(s: seq<u8>, index: nat)
    ensures ParseHex(s, index).Ok? <==> |s| % 2 == 0 && AllHex(s)
    ensures ParseHex(s, index).Panicked? <==> |s| % 2 == 1 && AllHex(s)
    ensures ParseHex(s, index).Ok? ==> |ParseHex(s, index).value| == |s| / 2
  {
    if |s| >= 2 && IsHex(s[0]) && IsHex(s[1]) {
      ParseHexCases(s[2..], index + 2);
      assert forall i :: 2 <= i < |s| ==> s[i] == s[2..][i - 2];
    }
  }

  lemma {:induction false} ParseHexBytes(s: seq<u8>, index: nat, k: nat)
    requires |s| % 2 == 0 && AllHex(s) && 2 * k < |s|
    ensures ParseHex(s, index).Ok? && |ParseHex(s, index).value| == |s| / 2
    ensures ParseHex(s, index).value[k] == ByteAt(s, k)
  {
    ParseHexCases(s, index);
    if k > 0 {
      assert forall i :: 0 <= i < |s| - 2 ==> s[2..][i] == s[i + 2];
      ParseHexBytes(s[2..], index + 2, k - 1);
    }
  }

  lemma {:induction false} ParseHexFirstBad(s: seq<u8>, index: nat, k: nat)
    requires FirstBad(s, k)
    ensures ParseHex(s, index) == Err(InvalidHexEncoding(s[k], index + k))
  {
    if k >= 2 {
      ParseHexFirstBad(s[2..], index + 2, k - 2);
    }
  }

  /** The source's `as u8`. */
  function AsU8(n: nat): u8 { n % 256 }

  function FromStr(S: nat, s: seq<u8>): Outcome<FixedSizePeerID, Error> {
    if |s| > 2 * S then Err(InvalidLength(2 * S, |s|))
    else match ParseHex(s, 0)
      case Ok(b) =>
        ParseHexCases(s, 0);
        Ok(FixedSizePeerID(AsU8(|s| / 2), b + Zeros(S - |b|)))
      case Err(e) => Err(e)
      case Panicked => Panicked
  }

  /** When parsing succeeds, when it reports which character, and when it panics. */
  lemma FromStrOutcomes(S: nat, s: seq<u8>)
    ensures |s| > 2 * S ==> FromStr(S, s) == Err(InvalidLength(2 * S, |s|))
    ensures FromStr(S, s).Ok? <==> |s| <= 2 * S && |s| % 2 == 0 && AllHex(s)
    ensures FromStr(S, s).Panicked? <==> |s| <= 2 * S && |s| % 2 == 1 && AllHex(s)
    ensures forall k: nat :: |s| <= 2 * S && FirstBad(s, k) ==> FromStr(S, s) == Err(InvalidHexEncoding(s[k], k))
  {
    ParseHexCases(s, 0);
    forall k: nat | FirstBad(s, k) ensures ParseHex(s, 0) == Err(InvalidHexEncoding(s[k], k)) {
      ParseHexFirstBad(s, 0, k);
    }
  }

  /** The parsing loop of the source, over a zeroed buffer. */
  method ParsePeerID(S: nat, s: seq<u8>) returns (r: Outcome<FixedSizePeerID, Error>)
    ensures r == FromStr(S, s)
  {
    FromStrOutcomes(S, s);
    if |s| > 2 * S {
      return Err(InvalidLength(2 * S, |s|));
    }
    var bytes := new u8[S](_ => 0);
    var i := 0;
    while 2 * i < |s|
      invariant 0 <= 2 * i <= |s|
      invariant forall k :: 0 <= k < 2 * i ==> IsHex(s[k])
      invariant forall k :: 0 <= k < S ==> bytes[k] == if k < i then ByteAt(s, k) else 0
      decreases |s| - 2 * i
    {
      var high := HexValue(s[2 * i]);
      if high.None? {
        assert FirstBad(s, 2 * i);
        return Err(InvalidHexEncoding(s[2 * i], 2 * i));
      }
      if 2 * i + 1 == |s| {
        return Panicked;
      }
      var low := HexValue(s[2 * i + 1]);
      if low.None? {
        assert FirstBad(s, 2 * i + 1);
        return Err(InvalidHexEncoding(s[2 * i + 1], 2 * i + 1));
      }
      bytes[i] := high.value * 16 + low.value;
      i := i + 1;
    }
    ParseHexFills(S, s, bytes[..]);
    r := Ok(FixedSizePeerID(AsU8(|s| / 2), bytes[..]));
  }

  lemma ParseHexFills(S: nat, s: seq<u8>, bytes: seq<u8>)
    requires |bytes| == S && |s| <= 2 * S && |s| % 2 == 0 && AllHex(s)
    requires forall k :: 0 <= k < S ==> bytes[k] == if k < |s| / 2 then ByteAt(s, k) else 0
    ensures FromStr(S, s) == Ok(FixedSizePeerID(AsU8(|s| / 2), bytes))
  {
    ParseHexCases(s, 0);
    forall k | 0 <= k < |s| / 2 ensures ParseHex(s, 0).value[k] == bytes[k] {
      ParseHexBytes(s, 0, k);
    }
    assert bytes == ParseHex(s, 0).value + Zeros(S - |s| / 2);
  }

  function Display(b: seq<u8>): (r: seq<u8>)
    ensures |r| == 2 * |b|
  {
    if b == [] then [] else [HexDigit(b[0] / 16), HexDigit(b[0] % 16)] + Display(b[1..])
  }

  /** The printing loop of the source: two lower-case digits for each used byte. */
  method Print(id: FixedSizePeerID) returns (text: seq<u8>)
    requires id.size <= |id.bytes|
    ensures text == Display(Used(id))
  {
    text := [];
    for i := 0 to id.size
      invariant Display(Used(id)) == text + Display(Used(id)[i..])
    {
      assert Used(id)[i..][1..] == Used(id)[i + 1..];
      text := text + [HexDigit(id.bytes[i] / 16), HexDigit(id.bytes[i] % 16)];
    }
  }

  lemma {:induction false} ParseAfterDisplay(b: seq<u8>, index: nat)
    ensures ParseHex(Display(b), index) == Ok(b)
    ensures AllHex(Display(b))
  {
    if b != [] {
      ParseAfterDisplay(b[1..], index + 2);
      assert Display(b)[2..] == Display(b[1..]);
      assert b == [b[0]] + b[1..];
    }
  }

  /** Printing then parsing is the identity, for every capacity. */
  lemma PrintThenParse(S: nat, id: FixedSizePeerID)
    requires Valid(id, S)
    ensures FromStr(S, Display(Used(id))) == Ok(id)
  {
    ParseAfterDisplay(Used(id), 0);
    assert id.bytes == Used(id) + Zeros(S - id.size);
  }

  function Lower(s: seq<u8>): (r: seq<u8>)
    ensures |r| == |s|
  {
    seq(|s|, i requires 0 <= i < |s| => if 'A' as int <= s[i] <= 'Z' as int then s[i] + 32 else s[i])
  }

  lemma {:induction false} DisplayAfterParse(s: seq<u8>, index: nat)
    requires ParseHex(s, index).Ok?
    ensures Display(ParseHex(s, index).value) == Lower(s)
  {
    if s != [] {
      DisplayAfterParse(s[2..], index + 2);
      assert Lower(s) == Lower(s[..2]) + Lower(s[2..]);
      var b := HexValue(s[0]).value * 16 + HexValue(s[1]).value;
      assert b / 16 == HexValue(s[0]).value && b % 16 == HexValue(s[1]).value;
      assert ParseHex(s, index).value[1..] == ParseHex(s[2..], index + 2).value;
    }
  }

  /** Parsing then printing lower-cases the text exactly when its byte count fits the one-byte size field;
      the parsed identifier is then well formed. */
  lemma ParseThenPrint(S: nat, s: seq<u8>)
    requires FromStr(S, s).Ok?
    ensures FromStr(S, s).value.size <= |FromStr(S, s).value.bytes| == S
    ensures Display(Used(FromStr(S, s).value)) == Lower(s) <==> |s| / 2 <= 255
    ensures |s| / 2 <= 255 ==> Valid(FromStr(S, s).value, S)
  {
    ParseHexCases(s, 0);
    var b := ParseHex(s, 0).value;
    var id := FromStr(S, s).value;
    if |s| / 2 <= 255 {
      assert Used(id) == b;
      DisplayAfterParse(s, 0);
    } else {
      assert |Display(Used(id))| == 2 * id.size < |Lower(s)|;
    }
  }

  /** Each digit, as it is printed and in either case. */
  lemma Digits(n: u8)
    requires n < 16
    ensures HexDigit(n) == "0123456789abcdef"[n] as int
    ensures HexValue("0123456789abcdef"[n] as int) == HexValue("0123456789ABCDEF"[n] as int) == Some(n)
  {
  }

  /** Each byte is printed in its place, the higher digit first. */
  lemma {:induction false} DisplayAt(b: seq<u8>, k: nat)
    requires k < |b|
    ensures Display(b)[2 * k] == HexDigit(b[k] / 16) && Display(b)[2 * k + 1] == HexDigit(b[k] % 16)
  {
    if k > 0 {
      DisplayAt(b[1..], k - 1);
    }
  }

  // ----- binary form -----

  /** The unsigned-varint encoding of a byte: seven bits at a time, the lowest first, each byte but the last with its
      top bit set. */
  function EncodeU8(n: u8): (r: seq<u8>)
    ensures 1 <= |r| <= 2 && (r[0] < 128 <==> |r| == 1)
    ensures n == r[0] % 128 + if |r| == 2 then 128 * (r[1] as int) else 0
    ensures |r| == 2 ==> r[1] == 1
  {
    if n < 128 then [n] else [n % 128 + 128, n / 128]
  }

  /** Reading an unsigned varint of at most two bytes from the front of `data`. */
  function ReadU8(data: seq<u8>): Outcome<(u8, seq<u8>), Error> {
    if data == [] then Err(UnexpectedEof)
    else if data[0] < 128 then Ok((data[0], data[1..]))
    else if |data| == 1 then Err(UnexpectedEof)
    else if data[1] >= 128 || data[1] == 0 then Err(InvalidVarint)
    else Ok((data[0] - 128 + 128 * (data[1] % 2), data[2..]))
  }

  /** The stored identifier and what is left of `data`; the capacity is truncated to a byte as in the source. */
  function ReadPeerID(S: nat, data: seq<u8>): Outcome<(FixedSizePeerID, seq<u8>), Error> {
    match ReadU8(data)
    case Err(e) => Err(e)
    case Panicked => Panicked
    case Ok((size, rest)) =>
      if size > AsU8(S) then Err(InvalidLength(S, size))
      else if |rest| < size then Err(UnexpectedEof)
      else Ok((FixedSizePeerID(size, rest[..size] + Zeros(S - size)), rest[size..]))
  }

  function FromBytes(S: nat, data: seq<u8>): Outcome<FixedSizePeerID, Error> {
    match ReadPeerID(S, data)
    case Err(e) => Err(e)
    case Panicked => Panicked
    case Ok((id, rest)) => if rest != [] then Err(InvalidLength(S, |data|)) else Ok(id)
  }

  function Write(id: FixedSizePeerID): seq<u8>
    requires id.size <= |id.bytes|
  {
    EncodeU8(id.size) + Used(id)
  }

  /** Reading what `write` produced gives the identifier back and consumes exactly what was written,
      whatever follows, exactly when the size passes the truncated capacity check (always, for S <= 255). */
  lemma WriteThenRead(S: nat, id: FixedSizePeerID, rest: seq<u8>)
    requires Valid(id, S)
    ensures ReadPeerID(S, Write(id) + rest) == Ok((id, rest)) <==> id.size <= AsU8(S)
    ensures id.size <= AsU8(S) && rest == [] ==> FromBytes(S, Write(id) + rest) == Ok(id)
    ensures id.size <= AsU8(S) && rest != [] ==>
              FromBytes(S, Write(id) + rest) == Err(InvalidLength(S, |Write(id)| + |rest|))
  {
    var data := Write(id) + rest;
    assert data[|EncodeU8(id.size)|..] == Used(id) + rest;
    assert ReadU8(data) == Ok((id.size, Used(id) + rest));
    assert (Used(id) + rest)[..id.size] == Used(id);
    assert (Used(id) + rest)[id.size..] == rest;
    assert id.bytes == Used(id) + Zeros(S - id.size);
  }

  /** Reading a size and what follows it: refused when the size passes the truncated capacity, then when too few bytes
      follow. */
  lemma ReadAfterSize(S: nat, n: u8, data: seq<u8>)
    ensures var r := ReadPeerID(S, EncodeU8(n) + data);
            if n > S % 256 then r == Err(InvalidLength(S, n))
            else if |data| < n then r == Err(UnexpectedEof)
            else r == Ok((FixedSizePeerID(n, data[..n] + Zeros(S - n)), data[n..]))
  {
    var all := EncodeU8(n) + data;
    assert all[|EncodeU8(n)|..] == data;
    assert ReadU8(all) == Ok((n, data));
  }

  /** Whatever the bytes, an accepted identifier is well formed, and they are the ones written for it exactly when the
      size in front has its shortest form. */
  lemma AcceptedIsValid(S: nat, data: seq<u8>)
    requires FromBytes(S, data).Ok?
    ensures Valid(FromBytes(S, data).value, S) && data != []
    ensures data == Write(FromBytes(S, data).value) <==>
            data[0] < 128 || (|data| >= 2 && data[1] == 1)
  {
    var (id, rest) := ReadPeerID(S, data).value;
    assert AsU8(S) <= S;
    assert |id.bytes| == S;
    var n := if data[0] < 128 then 1 else 2;
    assert ReadU8(data) == Ok((id.size, data[n..]));
    assert data[n..][id.size..] == [] && data[n..] == Used(id);
    assert data == data[..n] + data[n..];
    if data[0] < 128 || data[1] == 1 {
      assert data[..n] == EncodeU8(id.size);
    }
  }

  // ----- equality, order and hash -----

  predicate Eq(a: FixedSizePeerID, b: FixedSizePeerID)
    requires a.size <= |a.bytes| && b.size <= |b.bytes|
  {
    a.size == b.size && a.bytes[..a.size] == b.bytes[..a.size]
  }

  /** The derived order: size first, then the whole buffer. */
  function Cmp(a: FixedSizePeerID, b: FixedSizePeerID): Ordering {
    if a.size < b.size then Less
    else if a.size > b.size then Greater
    else Compare(a.bytes, b.bytes)
  }

  /** What is fed to a hasher. */
  function HashFeed(id: FixedSizePeerID): (u8, nat, seq<u8>)
    requires id.size <= |id.bytes|
  {
    (id.size, id.size, id.bytes[..id.size])
  }

  /** On well-formed identifiers the written equality, the order's Equal, the hasher's input
      and structural equality all agree. */
  lemma IdentityIsCoherent(S: nat, a: FixedSizePeerID, b: FixedSizePeerID)
    requires Valid(a, S) && Valid(b, S)
    ensures Eq(a, b) <==> a == b
    ensures Cmp(a, b) == Equal <==> Eq(a, b)
    ensures HashFeed(a) == HashFeed(b) <==> Eq(a, b)
  {
    CompareEqualIsEquality(a.bytes, b.bytes);
    assert a.bytes == Used(a) + Zeros(S - a.size);
    assert b.bytes == Used(b) + Zeros(S - b.size);
  }

  /** The order is total: antisymmetric and transitive. */
  lemma OrderIsTotal(a: FixedSizePeerID, b: FixedSizePeerID, c: FixedSizePeerID)
    ensures Cmp(a, b) == Less <==> Cmp(b, a) == Greater
    ensures Cmp(a, b) == Equal <==> a == b
    ensures Cmp(a, b) != Greater && Cmp(b, c) != Greater ==> Cmp(a, c) != Greater
  {
    CompareEqualIsEquality(a.bytes, b.bytes);
    CompareIsAntisymmetric(a.bytes, b.bytes);
    if Compare(a.bytes, b.bytes) != Greater && Compare(b.bytes, c.bytes) != Greater {
      CompareIsTransitive(a.bytes, b.bytes, c.bytes);
    }
  }

  /** The shorter identifier comes first; of two equally long ones, the one with the lesser byte where they first
      differ. */
  lemma OrderIsBySizeThenBytes(S: nat, a: FixedSizePeerID, b: FixedSizePeerID, k: nat)
    requires Valid(a, S) && Valid(b, S)
    requires a.size < b.size || (a.size == b.size && k < a.size && a.bytes[..k] == b.bytes[..k] && a.bytes[k] < b.bytes[k])
    ensures Cmp(a, b) == Less
  {
    if a.size == b.size {
      CompareIsLexicographic(a.bytes, b.bytes, k);
    }
  }

  /** The buffer is also exposed mutably: once its padding is changed, equal identifiers need not compare Equal. */
  lemma PaddingBreaksOrder()
    ensures exists a: FixedSizePeerID, b: FixedSizePeerID ::
              |a.bytes| == |b.bytes| == PEER_ID_CAPACITY && a.size == b.size == 0
              && Eq(a, b) && Cmp(a, b) != Equal
  {
    var a, b := FixedSizePeerID(0, Zeros(32)), FixedSizePeerID(0, [1] + Zeros(31));
    assert Eq(a, b);
    CompareEqualIsEquality(a.bytes, b.bytes);
    assert b.bytes[0] == 1;
  }
}
