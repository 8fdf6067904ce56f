/** Taking the peer identifier of a WebSocket request from its header or query (sf-server/src/extract_peer_id.rs). */
module ExtractPeerId {
  import opened Bytes
  import opened PeerIdentity

  datatype Rejection = MissingRequired | InvalidHeaderValue | EmptyHeader | EmptyQuery | BadQueryParse

  const AMPERSAND: u8 := '&' as int
  const EQUALS: u8 := '=' as int
  const PERCENT: u8 := '%' as int
  const QUESTION: u8 := '?' as int
  const HASH: u8 := '#' as int
  const KEY: seq<u8> := Ascii("peer_id")

  // ----- splitting -----

  function Split(s: seq<u8>, c: u8): seq<seq<u8>>
    decreases |s|
  {
    var k := IndexOf(s, c);
    if k == |s| then [s] else [s[..k]] + Split(s[k + 1..], c)
  }

  lemma {:induction false} SplitAfterJoin(parts: seq<seq<u8>>, c: u8)
    requires parts != [] && forall i :: 0 <= i < |parts| ==> c !in parts[i]
    ensures Split(Join(parts, c), c) == parts
  {
    var s := Join(parts, c);
    if |parts| == 1 {
      assert IndexOf(s, c) == |s|;
    } else {
      SplitAfterJoin(parts[1..], c);
      assert s[|parts[0]|] == c;
      assert IndexOf(s, c) == |parts[0]| by {
        assert forall i :: 0 <= i < |parts[0]| ==> s[i] == parts[0][i];
      }
      assert s[..|parts[0]|] == parts[0];
      assert s[|parts[0]| + 1..] == Join(parts[1..], c);
    }
  }

  /** Every text is its parts, joined. */
  lemma {:induction false} JoinAfterSplit(s: seq<u8>, c: u8)
    ensures Split(s, c) != [] && Join(Split(s, c), c) == s
    ensures forall i :: 0 <= i < |Split(s, c)| ==> c !in Split(s, c)[i]
    decreases |s|
  {
    var k := IndexOf(s, c);
    if k < |s| {
      JoinAfterSplit(s[k + 1..], c);
      assert Split(s, c)[1..] == Split(s[k + 1..], c);
      assert s == s[..k] + [c] + s[k + 1..];
    }
  }

  /** The value of a pair whose text before the first '=' is the key. */
  function ParamValue(pair: seq<u8>): Option<seq<u8>> {
    var k := IndexOf(pair, EQUALS);
    if k < |pair| && pair[..k] == KEY then Some(pair[k + 1..]) else None
  }

  function FindParam(pairs: seq<seq<u8>>): Option<seq<u8>> {
    if pairs == [] then None
    else if ParamValue(pairs[0]).Some? then ParamValue(pairs[0])
    else FindParam(pairs[1..])
  }

  lemma {:induction false} FindParamSkips(before: seq<seq<u8>>, pair: seq<u8>, after: seq<seq<u8>>)
    requires forall i :: 0 <= i < |before| ==> ParamValue(before[i]).None?
    requires ParamValue(pair).Some?
    ensures FindParam(before + [pair] + after) == ParamValue(pair)
  {
    var all := before + [pair] + after;
    if before != [] {
      assert all[0] == before[0];
      assert all[1..] == before[1..] + [pair] + after;
      FindParamSkips(before[1..], pair, after);
    }
  }

  // ----- percent decoding -----

  function DecodeBytes(s: seq<u8>): Option<seq<u8>> {
    if s == [] then Some([])
    else if s[0] == PERCENT then
      if |s| <= 2 || !IsHex(s[1]) || !IsHex(s[2]) then None
      else Attach([HexValue(s[1]).value * 16 + HexValue(s[2]).value], DecodeBytes(s[3..]))
    else Attach([s[0]], DecodeBytes(s[1..]))
  }

  function Attach(front: seq<u8>, rest: Option<seq<u8>>): Option<seq<u8>> {
    if rest.Some? then Some(front + rest.value) else None
  }

  lemma AttachTwice(a: seq<u8>, b: seq<u8>, rest: Option<seq<u8>>)
    ensures Attach(a, Attach(b, rest)) == Attach(a + b, rest)
  {
    if rest.Some? {
      assert a + (b + rest.value) == a + b + rest.value;
    }
  }

  lemma AttachNothing(a: seq<u8>, rest: Option<seq<u8>>)
    ensures Attach([], rest) == rest
    ensures Attach(a, Some([])) == Some(a)
  {
    assert a + [] == a;
    assert rest.Some? ==> [] + rest.value == rest.value;
  }

  predicate Continuation(b: u8) { 0x80 <= b <= 0xBF }

  /** Well-formed UTF-8, as Table 3-7 of the Unicode standard lists it. */
  predicate IsUtf8(s: seq<u8>) {
    if s == [] then true
    else if s[0] < 0x80 then IsUtf8(s[1..])
    else if 0xC2 <= s[0] <= 0xDF then |s| >= 2 && Continuation(s[1]) && IsUtf8(s[2..])
    else if 0xE0 <= s[0] <= 0xEF then
      && |s| >= 3 && Continuation(s[1]) && Continuation(s[2])
      && (s[0] == 0xE0 ==> s[1] >= 0xA0) && (s[0] == 0xED ==> s[1] <= 0x9F)
      && IsUtf8(s[3..])
    else if 0xF0 <= s[0] <= 0xF4 then
      && |s| >= 4 && Continuation(s[1]) && Continuation(s[2]) && Continuation(s[3])
      && (s[0] == 0xF0 ==> s[1] >= 0x90) && (s[0] == 0xF4 ==> s[1] <= 0x8F)
      && IsUtf8(s[4..])
    else false
  }

  function PercentDecode(input: seq<u8>): Option<seq<u8>> {
    var out := DecodeBytes(input);
    if out.Some? && IsUtf8(out.value) then out else None
  }

  /** The decoding loop of the source. */
  method PercentDecodeLoop(input: seq<u8>) returns (r: Option<seq<u8>>)
    ensures r == PercentDecode(input)
  {
    var out: seq<u8> := [];
    var i := 0;
    AttachNothing([], DecodeBytes(input));
    assert input[0..] == input;
    while i < |input|
      invariant 0 <= i <= |input|
      invariant DecodeBytes(input) == Attach(out, DecodeBytes(input[i..]))
    {
      if input[i] == PERCENT {
        if i + 2 >= |input| {
          return None;
        }
        var hi := HexValue(input[i + 1]);
        var lo := HexValue(input[i + 2]);
        if hi.None? || lo.None? {
          return None;
        }
        assert input[i..][3..] == input[i + 3..];
        AttachTwice(out, [hi.value * 16 + lo.value], DecodeBytes(input[i + 3..]));
        out := out + [hi.value * 16 + lo.value];
        i := i + 3;
      } else {
        assert input[i..][1..] == input[i + 1..];
        AttachTwice(out, [input[i]], DecodeBytes(input[i + 1..]));
        out := out + [input[i]];
        i := i + 1;
      }
    }
    AttachNothing(out, None);
    r := if IsUtf8(out) then Some(out) else None;
  }

  /** Each byte of `text` stands for itself or is percent-encoded with digits of either case
      (section 2.1 of RFC 3986). */
  ghost predicate Encodes(text: seq<u8>, e: seq<u8>) {
    if text == [] then e == []
    else
      || (|e| >= 1 && e[0] == text[0] != PERCENT && Encodes(text[1..], e[1..]))
      || (|e| >= 3 && e[0] == PERCENT && IsHex(e[1]) && IsHex(e[2])
          && HexValue(e[1]).value * 16 + HexValue(e[2]).value == text[0] && Encodes(text[1..], e[3..]))
  }

  lemma {:induction false} DecodeUndoesEncoding(text: seq<u8>, e: seq<u8>)
    requires Encodes(text, e)
    ensures DecodeBytes(e) == Some(text)
  {
    if text != [] {
      assert [text[0]] + text[1..] == text;
      if e[0] != PERCENT {
        DecodeUndoesEncoding(text[1..], e[1..]);
      } else {
        DecodeUndoesEncoding(text[1..], e[3..]);
      }
    }
  }

  lemma {:induction false} DecodedWasEncoded(text: seq<u8>, e: seq<u8>)
    requires DecodeBytes(e) == Some(text)
    ensures Encodes(text, e)
  {
    if e != [] {
      var n := if e[0] == PERCENT then 3 else 1;
      assert text == [text[0]] + DecodeBytes(e[n..]).value;
      DecodedWasEncoded(text[1..], e[n..]);
    }
  }

  /** The decoder takes exactly the encodings, each to its text. */
  lemma DecodesExactly(text: seq<u8>, e: seq<u8>)
    ensures DecodeBytes(e) == Some(text) <==> Encodes(text, e)
  {
    if Encodes(text, e) {
      DecodeUndoesEncoding(text, e);
    } else if DecodeBytes(e) == Some(text) {
      DecodedWasEncoded(text, e);
    }
  }

  predicate Scalar(c: nat) { c < 0xD800 || 0xE000 <= c < 0x11_0000 }

  /** The UTF-8 encoding of a scalar value (section 3 of RFC 3629). */
  function Utf8Of(c: nat): seq<u8>
    requires Scalar(c)
  {
    if c < 0x80 then [c]
    else if c < 0x800 then [0xC0 + c / 64, 0x80 + c % 64]
    else if c < 0x1_0000 then [0xE0 + c / 64 / 64, 0x80 + c / 64 % 64, 0x80 + c % 64]
    else [0xF0 + c / 64 / 64 / 64, 0x80 + c / 64 / 64 % 64, 0x80 + c / 64 % 64, 0x80 + c % 64]
  }

  function Utf8(cs: seq<nat>): seq<u8>
    requires Scalars(cs)
  {
    if cs == [] then [] else Utf8Of(cs[0]) + Utf8(cs[1..])
  }

  predicate Scalars(cs: seq<nat>) { forall i :: 0 <= i < |cs| ==> Scalar(cs[i]) }

  lemma Utf8Front(c: nat, rest: seq<u8>)
    requires Scalar(c)
    ensures IsUtf8(Utf8Of(c) + rest) == IsUtf8(rest)
  {
    var s := Utf8Of(c) + rest;
    assert s[|Utf8Of(c)|..] == rest;
  }

  lemma {:induction false} EncodedIsUtf8(cs: seq<nat>)
    requires Scalars(cs)
    ensures IsUtf8(Utf8(cs))
  {
    if cs != [] {
      EncodedIsUtf8(cs[1..]);
      Utf8Front(cs[0], Utf8(cs[1..]));
    }
  }

  /** Six more bits behind `high`, those of a continuation byte. */
  lemma Append(high: nat, b: u8) returns (c: nat)
    requires Continuation(b)
    ensures c == high * 64 + (b - 0x80) as int
    ensures c / 64 == high && 0x80 + c % 64 == b
  {
    c := high * 64 + (b - 0x80) as int;
  }

  lemma TwoBytes(b0: u8, b1: u8) returns (c: nat)
    requires 0xC2 <= b0 <= 0xDF && Continuation(b1)
    ensures Scalar(c) && Utf8Of(c) == [b0, b1]
  {
    c := Append(b0 - 0xC0, b1);
  }

  lemma ThreeBytes(b0: u8, b1: u8, b2: u8) returns (c: nat)
    requires 0xE0 <= b0 <= 0xEF && Continuation(b1) && Continuation(b2)
    requires (b0 == 0xE0 ==> b1 >= 0xA0) && (b0 == 0xED ==> b1 <= 0x9F)
    ensures Scalar(c) && Utf8Of(c) == [b0, b1, b2]
  {
    c := Append(b0 - 0xE0, b1);
    c := Append(c, b2);
  }

  lemma FourBytes(b0: u8, b1: u8, b2: u8, b3: u8) returns (c: nat)
    requires 0xF0 <= b0 <= 0xF4 && Continuation(b1) && Continuation(b2) && Continuation(b3)
    requires (b0 == 0xF0 ==> b1 >= 0x90) && (b0 == 0xF4 ==> b1 <= 0x8F)
    ensures Scalar(c) && Utf8Of(c) == [b0, b1, b2, b3]
  {
    c := Append(b0 - 0xF0, b1);
    c := Append(c, b2);
    c := Append(c, b3);
  }

  /** The first scalar value of well-formed bytes. */
  lemma FirstScalar(s: seq<u8>) returns (c: nat)
    requires IsUtf8(s) && s != []
    ensures Scalar(c) && Utf8Of(c) <= s && IsUtf8(s[|Utf8Of(c)|..])
  {
    if s[0] < 0x80 {
      c := s[0];
    } else if s[0] <= 0xDF {
      c := TwoBytes(s[0], s[1]);
    } else if s[0] <= 0xEF {
      c := ThreeBytes(s[0], s[1], s[2]);
    } else {
      c := FourBytes(s[0], s[1], s[2], s[3]);
    }
  }

  lemma {:induction false} Utf8IsEncoded(s: seq<u8>) returns (cs: seq<nat>)
    requires IsUtf8(s)
    ensures Scalars(cs) && Utf8(cs) == s
    decreases |s|
  {
    if s == [] {
      cs := [];
    } else {
      var c := FirstScalar(s);
      var more := Utf8IsEncoded(s[|Utf8Of(c)|..]);
      cs := [c] + more;
      assert cs[1..] == more;
    }
  }

  /** The well-formed bytes are those of sequences of scalar values, and no others. */
  lemma Utf8Exactly(s: seq<u8>)
    ensures IsUtf8(s) <==> exists cs: seq<nat> :: Scalars(cs) && Utf8(cs) == s
  {
    if IsUtf8(s) {
      var cs := Utf8IsEncoded(s);
    } else {
      forall cs: seq<nat> | Scalars(cs) ensures Utf8(cs) != s {
        EncodedIsUtf8(cs);
      }
    }
  }

  lemma {:induction false} AsciiIsUtf8(s: seq<u8>)
    requires forall i :: 0 <= i < |s| ==> s[i] < 0x80
    ensures IsUtf8(s)
  {
    if s != [] {
      AsciiIsUtf8(s[1..]);
    }
  }

  lemma {:induction false} EncodingHasNoSeparator(text: seq<u8>, e: seq<u8>)
    requires Encodes(text, e) && AllHex(text)
    ensures AMPERSAND !in e
  {
    if text != [] {
      if e[0] == text[0] != PERCENT && Encodes(text[1..], e[1..]) {
        EncodingHasNoSeparator(text[1..], e[1..]);
        assert e == [e[0]] + e[1..];
      } else {
        EncodingHasNoSeparator(text[1..], e[3..]);
        assert e == [e[0], e[1], e[2]] + e[3..];
      }
    }
  }

  // ----- extraction -----

  function Parse(text: seq<u8>, bad: Rejection): Outcome<PeerID, Rejection> {
    match FromStr(PEER_ID_CAPACITY, text)
    case Ok(id) => Ok(id)
    case Err(_) => Err(bad)
    case Panicked => Panicked
  }

  /** `HeaderValue::to_str` accepts visible ASCII and tabs. */
  predicate HeaderText(value: seq<u8>) {
    forall i :: 0 <= i < |value| ==> 32 <= value[i] < 127 || value[i] == 9
  }

  function ExtractFromHeader(value: seq<u8>): Outcome<PeerID, Rejection> {
    if !HeaderText(value) then Err(InvalidHeaderValue)
    else if value == [] then Err(EmptyHeader)
    else Parse(value, InvalidHeaderValue)
  }

  function ExtractFromQuery(query: Option<seq<u8>>): Outcome<PeerID, Rejection> {
    if query.None? then Err(MissingRequired)
    else match FindParam(Split(query.value, AMPERSAND))
      case None => Err(MissingRequired)
      case Some(raw) =>
        match PercentDecode(raw)
        case None => Err(BadQueryParse)
        case Some(decoded) => if decoded == [] then Err(EmptyQuery) else Parse(decoded, BadQueryParse)
  }

  /** A header, when present, is the only source considered. */
  function Extract(header: Option<seq<u8>>, query: Option<seq<u8>>): Outcome<PeerID, Rejection> {
    if header.Some? then ExtractFromHeader(header.value) else ExtractFromQuery(query)
  }

  function Pair(e: seq<u8>): seq<u8> { KEY + [EQUALS] + e }

  lemma PairHasKey(e: seq<u8>)
    requires AMPERSAND !in e
    ensures ParamValue(Pair(e)) == Some(e)
    ensures AMPERSAND !in Pair(e)
  {
    assert Pair(e)[7] == EQUALS;
    assert IndexOf(Pair(e), EQUALS) == 7 by {
      assert forall i :: 0 <= i < 7 ==> Pair(e)[i] == KEY[i];
    }
    assert Pair(e)[..7] == KEY && Pair(e)[8..] == e;
  }

  ghost predicate NoSeparator(parts: seq<seq<u8>>) {
    forall i :: 0 <= i < |parts| ==> AMPERSAND !in parts[i]
  }

  ghost predicate NoParam(parts: seq<seq<u8>>) {
    forall i :: 0 <= i < |parts| ==> ParamValue(parts[i]).None?
  }

  function Query(before: seq<seq<u8>>, e: seq<u8>, after: seq<seq<u8>>): seq<u8> {
    Join(before + [Pair(e)] + after, AMPERSAND)
  }

  lemma ParamIsFound(e: seq<u8>, before: seq<seq<u8>>, after: seq<seq<u8>>)
    requires AMPERSAND !in e && NoSeparator(before) && NoParam(before) && NoSeparator(after)
    ensures FindParam(Split(Query(before, e, after), AMPERSAND)) == Some(e)
  {
    PairHasKey(e);
    var parts := before + [Pair(e)] + after;
    assert NoSeparator(parts);
    SplitAfterJoin(parts, AMPERSAND);
    FindParamSkips(before, Pair(e), after);
  }

  /** A pair names the parameter exactly if it is the key, '=', and the value. */
  lemma OnlyPairsHaveKey(pair: seq<u8>, e: seq<u8>)
    ensures ParamValue(pair) == Some(e) <==> pair == Pair(e)
  {
    var k := IndexOf(pair, EQUALS);
    if k < |pair| && pair[..k] == KEY {
      assert pair == pair[..k] + [EQUALS] + pair[k + 1..];
    }
    if pair == Pair(e) {
      assert pair[7] == EQUALS;
      assert forall i :: 0 <= i < 7 ==> pair[i] == KEY[i];
      assert IndexOf(pair, EQUALS) == 7;
      assert pair[..7] == KEY && pair[8..] == e;
    }
  }

  lemma {:induction false} NoneIsFound(parts: seq<seq<u8>>)
    requires NoParam(parts)
    ensures FindParam(parts).None?
  {
    if parts != [] {
      NoneIsFound(parts[1..]);
    }
  }

  /** What becomes of the text that a request offers. */
  ghost predicate Settles(r: Outcome<PeerID, Rejection>, text: seq<u8>, empty: Rejection, bad: Rejection) {
    var wellFormed := AllHex(text) && |text| <= 2 * PEER_ID_CAPACITY;
    if text == [] then r == Err(empty)
    else if !wellFormed then r == Err(bad)
    else if |text| % 2 == 1 then r == Panicked
    else r.Ok? && Valid(r.value, PEER_ID_CAPACITY) && Display(Used(r.value)) == Lower(text)
  }

  lemma ParseSettles(text: seq<u8>, empty: Rejection, bad: Rejection)
    requires text != []
    ensures Settles(Parse(text, bad), text, empty, bad)
  {
    FromStrOutcomes(PEER_ID_CAPACITY, text);
    if FromStr(PEER_ID_CAPACITY, text).Ok? {
      ParseThenPrint(PEER_ID_CAPACITY, text);
    }
  }

  /** A header settles the request, whatever the query: it is refused when empty or not at most 64 hexadecimal digits,
      and otherwise taken for the identifier that prints as its lower case. */
  lemma HeaderSettles(value: seq<u8>, query: Option<seq<u8>>)
    ensures Settles(Extract(Some(value), query), value, EmptyHeader, InvalidHeaderValue)
  {
    if value != [] {
      ParseSettles(value, EmptyHeader, InvalidHeaderValue);
      if AllHex(value) {
        HexIsHeaderText(value);
      }
    }
  }

  /** Without a header the first parameter does likewise, with the text it encodes; one that encodes no text, or no
      UTF-8, is refused. */
  lemma ParameterSettles(e: seq<u8>, before: seq<seq<u8>>, after: seq<seq<u8>>, text: seq<u8>)
    requires AMPERSAND !in e && NoSeparator(before) && NoParam(before) && NoSeparator(after)
    ensures var r := Extract(None, Some(Query(before, e, after)));
            && (Encodes(text, e) && IsUtf8(text) ==> Settles(r, text, EmptyQuery, BadQueryParse))
            && ((forall t :: Encodes(t, e) ==> !IsUtf8(t)) ==> r == Err(BadQueryParse))
  {
    ParamIsFound(e, before, after);
    DecodesExactly(text, e);
    if text != [] {
      ParseSettles(text, EmptyQuery, BadQueryParse);
    }
    var decoded := DecodeBytes(e);
    if decoded.Some? {
      DecodesExactly(decoded.value, e);
    }
  }

  /** Without a header or a parameter of that key the request is refused. */
  lemma NothingIsMissing(parts: seq<seq<u8>>)
    requires parts != [] && NoSeparator(parts) && forall i, e :: 0 <= i < |parts| ==> parts[i] != Pair(e)
    ensures Extract(None, Some(Join(parts, AMPERSAND))) == Extract(None, None) == Err(MissingRequired)
  {
    SplitAfterJoin(parts, AMPERSAND);
    forall i | 0 <= i < |parts| ensures ParamValue(parts[i]).None? {
      if ParamValue(parts[i]).Some? {
        OnlyPairsHaveKey(parts[i], ParamValue(parts[i]).value);
      }
    }
    NoneIsFound(parts);
  }

  /** From the identifier to the server: whatever digits are percent-encoded and whatever other parameters
      surround it, provided none before it has the same key, the identifier arrives; only the empty one is
      turned away. */
  lemma QueryRoundTrip(id: PeerID, e: seq<u8>, before: seq<seq<u8>>, after: seq<seq<u8>>)
    requires Valid(id, PEER_ID_CAPACITY) && Encodes(Display(Used(id)), e)
    requires NoSeparator(before) && NoParam(before) && NoSeparator(after)
    ensures ExtractFromQuery(Some(Query(before, e, after))) == if id.size >= 1 then Ok(id) else Err(EmptyQuery)
  {
    var text := Display(Used(id));
    assert AMPERSAND !in e && PercentDecode(e) == Some(text) by {
      ParseAfterDisplay(Used(id), 0);
      EncodingHasNoSeparator(text, e);
      DecodeUndoesEncoding(text, e);
      AsciiIsUtf8(text);
    }
    ParamIsFound(e, before, after);
    PrintThenParse(PEER_ID_CAPACITY, id);
  }

  lemma {:induction false} PlainTextEncodesItself(text: seq<u8>)
    requires AllHex(text)
    ensures Encodes(text, text)
  {
    if text != [] {
      PlainTextEncodesItself(text[1..]);
    }
  }

  /** The query of a URI: behind the first '?' of what precedes a fragment (section 3 of RFC 3986). */
  function QueryOf(uri: seq<u8>): Option<seq<u8>> {
    var plain := uri[..IndexOf(uri, HASH)];
    var k := IndexOf(plain, QUESTION);
    if k == |plain| then None else Some(plain[k + 1..])
  }

  const SCHEME: seq<u8> := Ascii("wss://")
  const PATH: seq<u8> := Ascii("/ws")

  /** The URL a client connects to, for the host and path prefix it is given. */
  function ClientUrl(host: seq<u8>, id: PeerID): seq<u8>
    requires id.size <= |id.bytes|
  {
    (SCHEME + host + PATH) + [QUESTION] + Pair(Display(Used(id)))
  }

  lemma QueryIsBehind(front: seq<u8>, rest: seq<u8>)
    requires QUESTION !in front && HASH !in front && HASH !in rest
    ensures QueryOf(front + [QUESTION] + rest) == Some(rest)
  {
    var uri := front + [QUESTION] + rest;
    assert forall i :: 0 <= i < |front| ==> uri[i] == front[i];
    assert HASH !in uri;
    assert IndexOf(uri, HASH) == |uri| && uri[..|uri|] == uri;
    assert uri[|front|] == QUESTION && uri[|front| + 1..] == rest;
    assert IndexOf(uri, QUESTION) == |front|;
  }

  lemma PairHasNoHash(text: seq<u8>)
    requires AllHex(text)
    ensures HASH !in Pair(text)
  {
    assert forall i :: 0 <= i < |text| ==> IsHex(text[i]);
  }

  /** The URL a client connects to, on any host, names the client's own identifier to the server. */
  lemma ClientUrlNamesClient(host: seq<u8>, id: PeerID)
    requires Valid(id, PEER_ID_CAPACITY) && id.size >= 1
    requires QUESTION !in host && HASH !in host
    ensures Extract(None, QueryOf(ClientUrl(host, id))) == Ok(id)
  {
    var text := Display(Used(id));
    ParseAfterDisplay(Used(id), 0);
    PairHasNoHash(text);
    QueryIsBehind(SCHEME + host + PATH, Pair(text));
    PlainTextEncodesItself(text);
    QueryRoundTrip(id, text, [], []);
    assert [] + [Pair(text)] + [] == [Pair(text)];
  }

  /** The text handed to the parser: the header, when present, else the decoded parameter. */
  function Offered(header: Option<seq<u8>>, query: Option<seq<u8>>): Option<seq<u8>> {
    if header.Some? then header
    else match query
      case None => None
      case Some(q) =>
        match FindParam(Split(q, AMPERSAND))
        case None => None
        case Some(raw) => PercentDecode(raw)
  }

  lemma HexIsHeaderText(text: seq<u8>)
    requires AllHex(text)
    ensures HeaderText(text)
  {
    assert forall i :: 0 <= i < |text| ==> IsHex(text[i]);
  }

  /** Extraction, from a header or from a query, panics exactly on an odd number of hexadecimal digits within the
      capacity. */
  lemma ExtractPanics(header: Option<seq<u8>>, query: Option<seq<u8>>)
    ensures Extract(header, query).Panicked? <==>
            var text := Offered(header, query);
            text.Some? && |text.value| % 2 == 1 && |text.value| <= 2 * PEER_ID_CAPACITY && AllHex(text.value)
  {
    var text := Offered(header, query);
    if text.Some? {
      FromStrOutcomes(PEER_ID_CAPACITY, text.value);
      if AllHex(text.value) {
        HexIsHeaderText(text.value);
      }
    }
  }
}
