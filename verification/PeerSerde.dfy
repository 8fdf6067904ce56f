/** Serde for peer identifiers (sf-peer-id/src/serde.rs): a fixed buffer of S + 1 bytes and two visitors. */
module PeerSerde {
  import opened Bytes
  import opened PeerIdentity

  /** What serialisation hands to the serializer, if the identifier fits the buffer. */
  function Serialized(S: nat, id: FixedSizePeerID): Option<seq<u8>>
    requires id.size <= |id.bytes|
  {
    if |Write(id)| <= S + 1 then Some(Write(id)) else None
  }

  /** `write_all` into what is left of the buffer; false when the data does not fit. */
  method WriteAll(buffer: array<u8>, at: nat, data: seq<u8>) returns (ok: bool)
    requires at <= buffer.Length
    modifies buffer
    ensures ok <==> at + |data| <= buffer.Length
    ensures ok ==> buffer[at..at + |data|] == data
    ensures buffer[..at] == old(buffer[..at])
  {
    ok := at + |data| <= buffer.Length;
    if ok {
      forall i | 0 <= i < |data| {
        buffer[at + i] := data[i];
      }
    }
  }

  method Serialize(S: nat, id: FixedSizePeerID) returns (r: Option<seq<u8>>)
    requires Valid(id, S)
    ensures r == Serialized(S, id)
  {
    var buffer := new u8[S + 1](_ => 0);
    var size := EncodeU8(id.size);
    var ok := WriteAll(buffer, 0, size);
    if !ok {
      return None;
    }
    assert buffer[..|size|] == buffer[0..0 + |size|];
    ok := WriteAll(buffer, |size|, Used(id));
    if !ok {
      return None;
    }
    assert buffer[..|Write(id)|] == buffer[..|size|] + buffer[|size|..|size| + |Used(id)|];
    r := Some(buffer[..|Write(id)|]);
  }

  function VisitBytes(S: nat, v: seq<u8>): Option<FixedSizePeerID> {
    match FromBytes(S, v)
    case Ok(id) => Some(id)
    case _ => None
  }

  /** An element offered by a sequence deserialiser. */
  datatype Element = Byte(b: u8) | NotAByte

  /** The bytes offered, if every element is one. */
  function Offered(elements: seq<Element>): Option<seq<u8>> {
    if forall k :: 0 <= k < |elements| ==> elements[k].Byte? then
      Some(seq(|elements|, i requires 0 <= i < |elements| => elements[i].b))
    else None
  }

  function VisitElements(S: nat, elements: seq<Element>): Option<FixedSizePeerID> {
    var v := Offered(elements);
    if v.Some? && |v.value| <= S + 1 then VisitBytes(S, v.value) else None
  }

  /** The loop of `visit_seq`, which fills the buffer by index. */
  method VisitSeq(S: nat, elements: seq<Element>) returns (r: Option<FixedSizePeerID>)
    ensures r == VisitElements(S, elements)
  {
    var bytes := new u8[S + 1](_ => 0);
    var i := 0;
    while i < |elements|
      invariant 0 <= i <= |elements| && i <= S + 1
      invariant forall k :: 0 <= k < i ==> elements[k] == Byte(bytes[k])
    {
      if elements[i].NotAByte? || i >= S + 1 {
        return None;
      }
      bytes[i] := elements[i].b;
      i := i + 1;
    }
    assert bytes[..i] == Offered(elements).value;
    r := VisitBytes(S, bytes[..i]);
  }

  /** The buffer suffices exactly when the length prefix takes one byte or a byte is to spare;
      hence always for S <= 127. */
  lemma BufferSuffices(S: nat, id: FixedSizePeerID)
    requires Valid(id, S)
    ensures Serialized(S, id).Some? <==> id.size < 128 || id.size < S
  {
  }

  /** Deserialising what serialisation produced gives the identifier back through either visitor, for S <= 255. */
  lemma SerdeRoundTrip(S: nat, id: FixedSizePeerID, elements: seq<Element>)
    requires Valid(id, S) && S <= 255 && Serialized(S, id).Some?
    requires |elements| == |Serialized(S, id).value|
    requires forall i :: 0 <= i < |elements| ==> elements[i] == Byte(Serialized(S, id).value[i])
    ensures VisitBytes(S, Serialized(S, id).value) == Some(id)
    ensures VisitElements(S, elements) == Some(id)
  {
    WriteThenRead(S, id, []);
    assert Write(id) + [] == Write(id);
    assert Offered(elements).value == Write(id);
  }

  /** Nothing but a written identifier of at most S bytes, with zero padding, is accepted by either visitor. */
  lemma VisitorsAcceptOnlyValid(S: nat, elements: seq<Element>)
    requires VisitElements(S, elements).Some?
    ensures Offered(elements).Some? && VisitBytes(S, Offered(elements).value) == VisitElements(S, elements)
    ensures Valid(VisitElements(S, elements).value, S)
    ensures |elements| <= S + 1
  {
    AcceptedIsValid(S, Offered(elements).value);
  }
}
