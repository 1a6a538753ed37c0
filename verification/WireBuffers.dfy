/** The serializers as they run: a byte buffer with an offset, and a list of segments. */
module WireBuffers {
  import opened Bytes
  import opened Wire

  class SerializationBuffer {
    var buffer: array<Byte>
    var offset: nat

    ghost predicate Valid()
      reads this, buffer
    {
      offset <= buffer.Length
    }

    /** What has been written, or read past, so far. */
    ghost function Done(): seq<Byte>
      requires Valid()
      reads this, buffer
    {
      buffer[..offset]
    }

    /** A buffer from the pool: its contents are whatever was there. */
    constructor Allocate(size: nat)
      ensures Valid() && fresh(buffer) && buffer.Length == size && offset == 0
    {
      buffer := new Byte[size];
      offset := 0;
    }

    /** memcpy to a position. */
    method CopyTo(at: nat, data: seq<Byte>)
      requires at + |data| <= buffer.Length
      modifies buffer
      ensures buffer[..at + |data|] == old(buffer[..at]) + data
    {
      forall i | 0 <= i < |data| {
        buffer[at + i] := data[i];
      }
    }

    method WriteUInt32(value: nat, networkOrder: bool)
      requires Valid() && offset + 4 <= buffer.Length
      modifies this`offset, buffer
      ensures Valid() && Done() == old(Done()) + (if networkOrder then Big(value, 4) else Little(value, 4))
    {
      CopyTo(offset, if networkOrder then Big(value, 4) else Little(value, 4));
      offset := offset + 4;
    }

    method WriteUInt64(value: nat)
      requires Valid() && offset + 8 <= buffer.Length
      modifies this`offset, buffer
      ensures Valid() && Done() == old(Done()) + Little(value, 8)
    {
      CopyTo(offset, Little(value, 8));
      offset := offset + 8;
    }

    method WriteBytes(data: seq<Byte>)
      requires Valid() && offset + |data| <= buffer.Length
      modifies this`offset, buffer
      ensures Valid() && Done() == old(Done()) + data
    {
      CopyTo(offset, data);
      offset := offset + |data|;
    }

    method ReadUInt32(networkOrder: bool) returns (value: nat)
      requires Valid() && offset + 4 <= buffer.Length
      modifies this`offset
      ensures Valid() && offset == old(offset) + 4
      ensures value == if networkOrder then FromBig(buffer[old(offset)..offset])
              else FromLittle(buffer[old(offset)..offset])
    {
      var raw := buffer[offset..offset + 4];
      offset := offset + 4;
      value := if networkOrder then FromBig(raw) else FromLittle(raw);
    }

    method ReadUInt64() returns (value: nat)
      requires Valid() && offset + 8 <= buffer.Length
      modifies this`offset
      ensures Valid() && offset == old(offset) + 8
      ensures value == FromLittle(buffer[old(offset)..offset])
    {
      value := FromLittle(buffer[offset..offset + 8]);
      offset := offset + 8;
    }
  }

  lemma {:induction false} Next(mats: seq<Mat>, i: nat)
    requires i < |mats|
    ensures Packed(mats[..i + 1]) == Packed(mats[..i]) + BytesOf(mats[i])
    ensures TensorSize(mats[..i + 1]) == TensorSize(mats[..i]) + Size(mats[i])
    ensures |Packed(mats[..i + 1])| <= TensorSize(mats)
  {
    assert mats[..i + 1][..i] == mats[..i];
    PackedPrefix(mats, i + 1);
    PackedSize(mats);
  }

  /** tensor_size, added up in a loop. */
  method SumSizes(mats: seq<Mat>) returns (total: nat)
    ensures total == TensorSize(mats)
  {
    total := 0;
    for i := 0 to |mats|
      invariant total == TensorSize(mats[..i])
    {
      Next(mats, i);
      total := total + Size(mats[i]);
    }
    assert mats[..|mats|] == mats;
  }

  method WriteHeader(codec: Codec, p: Part, tensorSize: nat, sb: SerializationBuffer)
    requires tensorSize == TensorSize(p.mats)
    requires sb.Valid() && sb.offset == 0 && sb.buffer.Length == 4 + PayloadSize(codec, p)
    modifies sb`offset, sb.buffer
    ensures sb.Valid() && sb.Done() == Header(codec, p)
  {
    var proto := Message(codec, p);
    sb.WriteUInt32(4 + 8 + |proto| + tensorSize, true);
    sb.WriteUInt32(|proto|, false);
    sb.WriteUInt64(tensorSize);
    sb.WriteBytes(proto);
  }

  /** Copies the matrices behind the header; what has no pointer is skipped, and the rest moves up. */
  method CopyMatrices(head: seq<Byte>, mats: seq<Mat>, sb: SerializationBuffer)
    requires sb.Valid() && sb.Done() == head && sb.offset + TensorSize(mats) <= sb.buffer.Length
    modifies sb`offset, sb.buffer
    ensures sb.Valid() && sb.Done() == head + Packed(mats)
  {
    var copied := 0;
    for i := 0 to |mats|
      invariant copied == |Packed(mats[..i])| && |head| + copied <= sb.buffer.Length
      invariant sb.buffer[..|head| + copied] == head + Packed(mats[..i]) && sb.offset == |head|
    {
      Next(mats, i);
      var m := mats[i];
      assert head + Packed(mats[..i + 1]) == head + Packed(mats[..i]) + BytesOf(m);
      if Size(m) > 0 && m.Data? {
        sb.CopyTo(sb.offset + copied, m.bytes);
        copied := copied + Size(m);
      }
    }
    assert mats[..|mats|] == mats;
    sb.offset := sb.offset + copied;
  }

  method SerializeProto(codec: Codec, p: Part) returns (sb: SerializationBuffer)
    requires Fits(codec, p)
    ensures fresh(sb) && sb.Valid() && Copied(codec, p, sb.buffer[..]) && sb.Done() == Frame(codec, p)
  {
    var tensorSize := SumSizes(p.mats);
    sb := new SerializationBuffer.Allocate(4 + (4 + 8 + |Message(codec, p)| + tensorSize));
    WriteHeader(codec, p, tensorSize, sb);
    CopyMatrices(Header(codec, p), p.mats, sb);
  }

  class ScatterGatherBuffer {
    var segments: seq<seq<Byte>>

    constructor ()
      ensures segments == []
    {
      segments := [];
    }

    method AddOwnedSegment(data: seq<Byte>)
      modifies this
      ensures segments == old(segments) + [data]
    {
      segments := segments + [data];
    }

    method AddReferenceSegment(m: Mat)
      modifies this
      ensures segments == old(segments) + (if Size(m) > 0 && m.Data? then [BytesOf(m)] else [])
    {
      if m.Data? && Size(m) > 0 {
        segments := segments + [m.bytes];
      }
    }

    method GetTotalSize() returns (total: nat)
      ensures total == |Concat(segments)|
    {
      total := 0;
      for i := 0 to |segments|
        invariant total == |Concat(segments[..i])|
      {
        assert segments[..i + 1][..i] == segments[..i];
        total := total + |segments[i]|;
      }
      assert segments[..|segments|] == segments;
    }
  }

  lemma {:induction false} SegmentsNext(head: seq<Byte>, mats: seq<Mat>, i: nat)
    requires i < |mats|
    ensures Segments(head, mats[..i + 1])
            == Segments(head, mats[..i]) + (if Size(mats[i]) > 0 && mats[i].Data? then [BytesOf(mats[i])] else [])
  {
    assert mats[..i + 1][..i] == mats[..i];
  }

  method AddSegments(head: seq<Byte>, mats: seq<Mat>, sg: ScatterGatherBuffer)
    requires sg.segments == []
    modifies sg
    ensures sg.segments == Segments(head, mats)
  {
    sg.AddOwnedSegment(head);
    for i := 0 to |mats|
      invariant sg.segments == Segments(head, mats[..i])
    {
      SegmentsNext(head, mats, i);
      sg.AddReferenceSegment(mats[i]);
    }
    assert mats[..|mats|] == mats;
  }

  method BuildHeader(codec: Codec, p: Part) returns (head: seq<Byte>)
    requires Fits(codec, p)
    ensures head == Header(codec, p)
  {
    var tensorSize := SumSizes(p.mats);
    var proto := Message(codec, p);
    head := Big(4 + 8 + |proto| + tensorSize, 4) + Little(|proto|, 4) + Little(tensorSize, 8) + proto;
  }

  lemma {:induction false} SegmentsAreFrame(codec: Codec, p: Part)
    ensures Concat(Segments(Header(codec, p), p.mats)) == Frame(codec, p)
  {
    SegmentsArePacked(Header(codec, p), p.mats);
  }

  method SerializeZeroCopy(codec: Codec, p: Part) returns (sg: ScatterGatherBuffer)
    requires Fits(codec, p)
    ensures fresh(sg) && sg.segments == Segments(Header(codec, p), p.mats)
    ensures Concat(sg.segments) == Frame(codec, p)
  {
    var head := BuildHeader(codec, p);
    sg := new ScatterGatherBuffer();
    AddSegments(head, p.mats, sg);
    SegmentsAreFrame(codec, p);
  }

  /** Lays out the matrices behind the message, in the order the message lists them. */
  method ReadSpans(at: nat, sizes: seq<nat>) returns (spans: seq<Span>)
    ensures spans == Spans(at, sizes)
  {
    spans := [];
    var end := at;
    for i := 0 to |sizes|
      invariant |spans| == i && spans == Spans(at, sizes[..i])
      invariant end == if spans == [] then at else spans[i - 1].at + spans[i - 1].size
    {
      assert sizes[..i + 1][..i] == sizes[..i];
      spans := spans + [Span(end, sizes[i])];
      end := end + sizes[i];
    }
    assert sizes[..|sizes|] == sizes;
  }

  method DeserializeProto(codec: Codec, sb: SerializationBuffer) returns (r: Outcome)
    requires sb.Valid() && sb.offset == 0
    modifies sb`offset
    ensures r == Parse(codec, sb.buffer[..])
  {
    var size := sb.buffer.Length;
    if size < 16 {
      return TooSmall;
    }
    var payload := sb.ReadUInt32(true);
    var proto := sb.ReadUInt32(false);
    var tensor := sb.ReadUInt64();
    HeaderSlices(sb.buffer);
    if proto == 0 || proto > MAX_PROTO {
      return BadProtoSize;
    }
    if tensor > MAX_TENSOR {
      return BadTensorSize;
    }
    if sb.offset + proto + tensor > size {
      return TooLong;
    }
    assert sb.buffer[..][16..16 + proto] == sb.buffer[16..16 + proto];
    match codec.decode(sb.buffer[sb.offset..sb.offset + proto]) {
      case Garbled => return Unparsable;
      case OtherMessage => return NotGemm;
      case Gemm(fields) =>
        var spans := ReadSpans(sb.offset + proto, fields.sizes);
        return Ok(fields, spans);
    }
  }

  lemma {:induction false} HeaderSlices(buffer: array<Byte>)
    requires buffer.Length >= 16
    ensures buffer[..][4..8] == buffer[4..8] && buffer[..][8..16] == buffer[8..16]
  {
  }
}
