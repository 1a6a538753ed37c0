/**
 The wire format of a partition: a length prefix, two sizes, the message, the matrices.
 The message itself is any codec that can be undone.
 */
module Wire {
  import opened Bytes

  /** A matrix to send: a null pointer with the size it is said to have, or its bytes. */
  datatype Mat = Null(declared: nat) | Data(bytes: seq<Byte>)

  function Size(m: Mat): nat {
    if m.Null? then m.declared else |m.bytes|
  }

  function BytesOf(m: Mat): seq<Byte> {
    if m.Null? then [] else m.bytes
  }

  datatype Fields = Fields(version: nat, row: int, col: int, pivot: int, hDim: int, devId: int, oid: int, gemmId: int,
                           timestamp: nat, sizes: seq<nat>)

  datatype Parsed = Garbled | OtherMessage | Gemm(fields: Fields)

  datatype Codec = Codec(encode: Fields -> seq<Byte>, decode: seq<Byte> -> Parsed)

  ghost predicate Invertible(codec: Codec) {
    forall f: Fields :: codec.encode(f) != [] && codec.decode(codec.encode(f)) == Gemm(f)
  }

  /** A partition: its fields, with the sizes of its matrices, and the matrices. */
  datatype Part = Part(fields: Fields, mats: seq<Mat>)

  function Sizes(mats: seq<Mat>): (s: seq<nat>)
    ensures |s| == |mats|
  {
    seq(|mats|, i requires 0 <= i < |mats| => Size(mats[i]))
  }

  function TensorSize(mats: seq<Mat>): nat {
    if mats == [] then 0 else TensorSize(mats[..|mats| - 1]) + Size(mats[|mats| - 1])
  }

  /** The matrices' bytes, one after the other; null pointers contribute none. */
  function Packed(mats: seq<Mat>): seq<Byte> {
    if mats == [] then [] else Packed(mats[..|mats| - 1]) + BytesOf(mats[|mats| - 1])
  }

  function Message(codec: Codec, p: Part): seq<Byte> {
    codec.encode(p.fields.(sizes := Sizes(p.mats)))
  }

  function PayloadSize(codec: Codec, p: Part): nat {
    4 + 8 + |Message(codec, p)| + TensorSize(p.mats)
  }

  /** The 32-bit size fields hold the sizes they are given. */
  predicate Fits(codec: Codec, p: Part) {
    PayloadSize(codec, p) < 0x1_0000_0000
  }

  function Header(codec: Codec, p: Part): (h: seq<Byte>)
    ensures |h| == 16 + |Message(codec, p)|
  {
    Big(PayloadSize(codec, p), 4) + Little(|Message(codec, p)|, 4) + Little(TensorSize(p.mats), 8) + Message(codec, p)
  }

  /** What goes on the wire. */
  function Frame(codec: Codec, p: Part): seq<Byte> {
    Header(codec, p) + Packed(p.mats)
  }

  predicate NullsAreEmpty(mats: seq<Mat>) {
    forall i | 0 <= i < |mats| && mats[i].Null? :: mats[i].declared == 0
  }

  lemma {:induction false} PackedSize(mats: seq<Mat>)
    ensures |Packed(mats)| <= TensorSize(mats)
    ensures |Packed(mats)| == TensorSize(mats) <==> NullsAreEmpty(mats)
  {
    if mats != [] {
      PackedSize(mats[..|mats| - 1]);
    }
  }

  // --------------------------------------------------------------------------
  // The copying and the zero-copy serializer
  // --------------------------------------------------------------------------

  function Concat(segments: seq<seq<Byte>>): seq<Byte> {
    if segments == [] then [] else Concat(segments[..|segments| - 1]) + segments[|segments| - 1]
  }

  /** The zero-copy segments: a header, then each matrix that has bytes. */
  function Segments(head: seq<Byte>, mats: seq<Mat>): seq<seq<Byte>> {
    if mats == [] then [head]
    else
      var n := |mats| - 1;
      Segments(head, mats[..n]) + (if Size(mats[n]) > 0 && mats[n].Data? then [BytesOf(mats[n])] else [])
  }

  lemma {:induction false} ConcatAppend(segments: seq<seq<Byte>>, last: seq<Byte>)
    ensures Concat(segments + [last]) == Concat(segments) + last
  {
    assert (segments + [last])[..|segments|] == segments;
  }

  lemma {:induction false} SegmentsArePacked(head: seq<Byte>, mats: seq<Mat>)
    ensures Concat(Segments(head, mats)) == head + Packed(mats)
  {
    if mats == [] {
      ConcatAppend([], head);
      assert [] + [head] == [head];
    } else {
      var n := |mats| - 1;
      SegmentsArePacked(head, mats[..n]);
      var before, m := Segments(head, mats[..n]), mats[n];
      if Size(m) > 0 && m.Data? {
        ConcatAppend(before, BytesOf(m));
        assert head + Packed(mats[..n]) + BytesOf(m) == head + Packed(mats);
      } else {
        assert before + [] == before;
        assert Packed(mats[..n]) + [] == Packed(mats);
      }
    }
  }

  /** What the copying serializer leaves in its buffer: the frame, and beyond it whatever the buffer held. */
  ghost predicate Copied(codec: Codec, p: Part, buffer: seq<Byte>) {
    |buffer| == 4 + PayloadSize(codec, p) && Frame(codec, p) <= buffer
  }

  /**
   Sent piece by piece or copied into one buffer, the bytes are the same exactly when null
   pointers have size zero.
   */
  lemma {:induction false} ZeroCopyIsCopying(codec: Codec, p: Part, buffer: seq<Byte>)
    requires Copied(codec, p, buffer)
    ensures Concat(Segments(Header(codec, p), p.mats)) == buffer <==> NullsAreEmpty(p.mats)
  {
    SegmentsArePacked(Header(codec, p), p.mats);
    PackedSize(p.mats);
  }

  // --------------------------------------------------------------------------
  // Reading back
  // --------------------------------------------------------------------------

  /** A matrix in a received buffer: where it starts and its size. */
  datatype Span = Span(at: nat, size: nat)

  function Spans(at: nat, sizes: seq<nat>): (s: seq<Span>)
    ensures |s| == |sizes|
  {
    if sizes == [] then []
    else
      var before := Spans(at, sizes[..|sizes| - 1]);
      var end := if before == [] then at else before[|before| - 1].at + before[|before| - 1].size;
      before + [Span(end, sizes[|sizes| - 1])]
  }

  /** TooSmall, TooLong, Unparsable and NotGemm are exceptions; the bad sizes abort. */
  datatype Outcome = TooSmall | BadProtoSize | BadTensorSize | TooLong | Unparsable | NotGemm
           | Ok(fields: Fields, mats: seq<Span>)

  const MAX_PROTO := 100 * 1024 * 1024
  const MAX_TENSOR := 1024 * 1024 * 1024

  function Parse(codec: Codec, buffer: seq<Byte>): Outcome {
    if |buffer| < 16 then TooSmall
    else
      var proto, tensor := FromLittle(buffer[4..8]), FromLittle(buffer[8..16]);
      if proto == 0 || proto > MAX_PROTO then BadProtoSize
      else if tensor > MAX_TENSOR then BadTensorSize
      else if 16 + proto + tensor > |buffer| then TooLong
      else
        match codec.decode(buffer[16..16 + proto])
        case Garbled => Unparsable
        case OtherMessage => NotGemm
        case Gemm(fields) => Ok(fields, Spans(16 + proto, fields.sizes))
  }

  /** The span holds the matrix. */
  ghost predicate Holds(buffer: seq<Byte>, span: Span, m: Mat) {
    span.size == Size(m) && span.at + span.size <= |buffer| && buffer[span.at..span.at + span.size] == BytesOf(m)
  }

  lemma {:induction false} PackedPrefix(mats: seq<Mat>, k: nat)
    requires k <= |mats|
    ensures Packed(mats[..k]) <= Packed(mats)
  {
    if k < |mats| {
      var n := |mats| - 1;
      assert mats[..n][..k] == mats[..k];
      PackedPrefix(mats[..n], k);
    } else {
      assert mats[..k] == mats;
    }
  }

  /** The span of matrix i starts where the matrices before it end. */
  ghost predicate Follows(span: Span, at: nat, mats: seq<Mat>, i: nat)
    requires i < |mats|
  {
    span == Span(at + TensorSize(mats[..i]), Size(mats[i]))
  }

  lemma {:induction false} SpansFollow(mats: seq<Mat>, at: nat)
    ensures var spans := Spans(at, Sizes(mats));
            && (mats != [] ==> spans[|mats| - 1].at + spans[|mats| - 1].size == at + TensorSize(mats))
            && forall i | 0 <= i < |mats| :: Follows(spans[i], at, mats, i)
  {
    if mats != [] {
      var n := |mats| - 1;
      SpansFollow(mats[..n], at);
      assert Sizes(mats)[..n] == Sizes(mats[..n]);
      var spans, before := Spans(at, Sizes(mats)), Spans(at, Sizes(mats[..n]));
      forall i | 0 <= i < |mats|
        ensures Follows(spans[i], at, mats, i)
      {
        if i < n {
          assert mats[..n][..i] == mats[..i];
          assert Follows(before[i], at, mats[..n], i);
        }
      }
    }
  }

  /** A matrix's bytes lie behind those of the matrices before it. */
  lemma {:induction false} PackedAt(mats: seq<Mat>, i: nat)
    requires i < |mats|
    ensures Packed(mats[..i]) + BytesOf(mats[i]) <= Packed(mats)
  {
    PackedPrefix(mats, i + 1);
    assert mats[..i + 1][..i] == mats[..i];
  }

  lemma {:induction false} SliceAt(head: seq<Byte>, before: seq<Byte>, middle: seq<Byte>, all: seq<Byte>)
    requires before + middle <= all
    ensures var at := |head| + |before|;
            at + |middle| <= |head + all| && (head + all)[at..at + |middle|] == middle
  {
    assert all[..|before + middle|] == before + middle;
  }

  lemma {:induction false} SpanHolds(head: seq<Byte>, mats: seq<Mat>, span: Span, i: nat)
    requires NullsAreEmpty(mats) && i < |mats| && Follows(span, |head|, mats, i)
    ensures Holds(head + Packed(mats), span, mats[i])
  {
    PackedSize(mats[..i]);
    PackedAt(mats, i);
    var m := mats[i];
    assert |BytesOf(m)| == Size(m);
    SliceAt(head, Packed(mats[..i]), BytesOf(m), Packed(mats));
  }

  ghost predicate AllHold(buffer: seq<Byte>, spans: seq<Span>, mats: seq<Mat>) {
    |spans| == |mats| && forall i | 0 <= i < |mats| :: Holds(buffer, spans[i], mats[i])
  }

  lemma {:induction false} SpansHold(head: seq<Byte>, mats: seq<Mat>, spans: seq<Span>)
    requires NullsAreEmpty(mats) && |spans| == |mats|
    requires forall i | 0 <= i < |mats| :: Follows(spans[i], |head|, mats, i)
    ensures AllHold(head + Packed(mats), spans, mats)
  {
    forall i | 0 <= i < |mats|
      ensures Holds(head + Packed(mats), spans[i], mats[i])
    {
      SpanHolds(head, mats, spans[i], i);
    }
  }

  lemma {:induction false} HeaderReads(codec: Codec, p: Part)
    requires Fits(codec, p)
    ensures var h := Header(codec, p);
            && FromBig(h[..4]) == PayloadSize(codec, p)
            && FromLittle(h[4..8]) == |Message(codec, p)|
            && FromLittle(h[8..16]) == TensorSize(p.mats)
            && h[16..] == Message(codec, p)
  {
    PowFour();
    PowEight();
    BigRoundTrip(PayloadSize(codec, p), 4);
    LittleRoundTrip(|Message(codec, p)|, 4);
    LittleRoundTrip(TensorSize(p.mats), 8);
    HeaderParts(Big(PayloadSize(codec, p), 4), Little(|Message(codec, p)|, 4), Little(TensorSize(p.mats), 8),
      Message(codec, p));
  }

  lemma {:induction false} HeaderParts(a: seq<Byte>, b: seq<Byte>, c: seq<Byte>, d: seq<Byte>)
    requires |a| == 4 && |b| == 4 && |c| == 8
    ensures var h := a + b + c + d;
            h[..4] == a && h[4..8] == b && h[8..16] == c && h[16..] == d
  {
  }

  /** The length prefix tells the length of the rest of the frame. */
  lemma {:induction false} PrefixIsLength(codec: Codec, p: Part)
    requires Fits(codec, p) && NullsAreEmpty(p.mats)
    ensures |Frame(codec, p)| >= 4 && FromBig(Frame(codec, p)[..4]) + 4 == |Frame(codec, p)|
  {
    HeaderReads(codec, p);
    PackedSize(p.mats);
    assert Frame(codec, p)[..4] == Header(codec, p)[..4];
  }

  lemma {:induction false} FrameReads(codec: Codec, p: Part)
    requires Fits(codec, p)
    ensures var f, n := Frame(codec, p), |Message(codec, p)|;
            FromLittle(f[4..8]) == n && FromLittle(f[8..16]) == TensorSize(p.mats) && f[16..16 + n] == Message(codec, p)
  {
    HeaderReads(codec, p);
    var f, h, n := Frame(codec, p), Header(codec, p), |Message(codec, p)|;
    assert f[4..8] == h[4..8] && f[8..16] == h[8..16] && f[16..16 + n] == h[16..];
  }

  lemma {:induction false} ParseFrame(codec: Codec, p: Part)
    requires Invertible(codec) && Fits(codec, p) && NullsAreEmpty(p.mats)
    requires |Message(codec, p)| <= MAX_PROTO && TensorSize(p.mats) <= MAX_TENSOR
    ensures Parse(codec, Frame(codec, p))
            == Ok(p.fields.(sizes := Sizes(p.mats)), Spans(|Header(codec, p)|, Sizes(p.mats)))
  {
    FrameReads(codec, p);
    PackedSize(p.mats);
  }

  /**
   Reading a serialized partition gives back every field and every matrix: null pointers of
   size zero come back as empty blocks.
   */
  lemma {:induction false} RoundTrip(codec: Codec, p: Part)
    requires Invertible(codec) && Fits(codec, p) && NullsAreEmpty(p.mats)
    requires |Message(codec, p)| <= MAX_PROTO && TensorSize(p.mats) <= MAX_TENSOR
    ensures var r := Parse(codec, Frame(codec, p));
            r.Ok? && r.fields == p.fields.(sizes := Sizes(p.mats)) && AllHold(Frame(codec, p), r.mats, p.mats)
  {
    ParseFrame(codec, p);
    SpansFollow(p.mats, |Header(codec, p)|);
    SpansHold(Header(codec, p), p.mats, Spans(|Header(codec, p)|, Sizes(p.mats)));
  }
}
