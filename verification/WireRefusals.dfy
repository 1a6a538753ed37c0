/** What the reader makes of every buffer, told from the header that was written into it. */
module WireRefusals {
  import opened Bytes
  import opened Wire

  /** A buffer: four bytes of prefix, the message's size, the matrices' size, and the rest. */
  function Written(prefix: seq<Byte>, proto: nat, tensor: nat, rest: seq<Byte>): (buffer: seq<Byte>)
    requires |prefix| == 4
    ensures |buffer| == 16 + |rest|
  {
    prefix + Little(proto, 4) + Little(tensor, 8) + rest
  }

  lemma {:induction false} LittleOnto(s: seq<Byte>)
    ensures FromLittle(s) < Pow256(|s|) && Little(FromLittle(s), |s|) == s
  {
    if s != [] {
      LittleOnto(s[1..]);
      var v := FromLittle(s[1..]);
      assert (s[0] + 256 * v) % 256 == s[0] && (s[0] + 256 * v) / 256 == v;
      assert s == [s[0]] + s[1..];
    }
  }

  /** Every buffer of sixteen bytes and more was written so, with sizes that fit their fields. */
  lemma {:induction false} EveryBufferIsWritten(buffer: seq<Byte>)
    returns (prefix: seq<Byte>, proto: nat, tensor: nat, rest: seq<Byte>)
    requires |buffer| >= 16
    ensures |prefix| == 4 && proto < 0x1_0000_0000 && tensor < 0x1_0000_0000_0000_0000
    ensures buffer == Written(prefix, proto, tensor, rest)
  {
    prefix, rest := buffer[..4], buffer[16..];
    proto, tensor := FromLittle(buffer[4..8]), FromLittle(buffer[8..16]);
    LittleOnto(buffer[4..8]);
    LittleOnto(buffer[8..16]);
    PowFour();
    PowEight();
    assert buffer == buffer[..4] + buffer[4..8] + buffer[8..16] + buffer[16..];
  }

  function SizesUpTo(sizes: seq<nat>, i: nat): nat
    requires i <= |sizes|
  {
    if i == 0 then 0 else SizesUpTo(sizes, i - 1) + sizes[i - 1]
  }

  /** The matrices lie one behind the other from a position on, with the sizes given. */
  ghost predicate LaidOut(spans: seq<Span>, at: nat, sizes: seq<nat>) {
    |spans| == |sizes| && forall i | 0 <= i < |sizes| :: spans[i] == Span(at + SizesUpTo(sizes, i), sizes[i])
  }

  lemma {:induction false} SizesPrefix(sizes: seq<nat>, n: nat, i: nat)
    requires i <= n <= |sizes|
    ensures SizesUpTo(sizes[..n], i) == SizesUpTo(sizes, i)
  {
    if i > 0 {
      SizesPrefix(sizes, n, i - 1);
    }
  }

  lemma {:induction false} SpanAt(at: nat, sizes: seq<nat>, i: nat)
    requires i < |sizes|
    ensures Spans(at, sizes)[i] == Span(at + SizesUpTo(sizes, i), sizes[i])
  {
    var n := |sizes| - 1;
    var before := Spans(at, sizes[..n]);
    if i < n {
      SpanAt(at, sizes[..n], i);
      SizesPrefix(sizes, n, i);
    } else if n > 0 {
      SpanAt(at, sizes[..n], n - 1);
      SizesPrefix(sizes, n, n - 1);
    }
  }

  lemma {:induction false} SpansLaidOut(at: nat, sizes: seq<nat>)
    ensures LaidOut(Spans(at, sizes), at, sizes)
  {
    forall i | 0 <= i < |sizes|
      ensures Spans(at, sizes)[i] == Span(at + SizesUpTo(sizes, i), sizes[i])
    {
      SpanAt(at, sizes, i);
    }
  }

  lemma {:induction false} WrittenReads(prefix: seq<Byte>, proto: nat, tensor: nat, rest: seq<Byte>)
    requires |prefix| == 4 && proto < 0x1_0000_0000 && tensor < 0x1_0000_0000_0000_0000
    ensures var buffer := Written(prefix, proto, tensor, rest);
            && FromLittle(buffer[4..8]) == proto && FromLittle(buffer[8..16]) == tensor
            && (proto <= |rest| ==> buffer[16..16 + proto] == rest[..proto])
  {
    PowFour();
    PowEight();
    LittleRoundTrip(proto, 4);
    LittleRoundTrip(tensor, 8);
    HeaderParts(prefix, Little(proto, 4), Little(tensor, 8), rest);
    var buffer := Written(prefix, proto, tensor, rest);
    if proto <= |rest| {
      assert buffer[16..16 + proto] == buffer[16..][..proto];
    }
  }

  /** Which refusal, or that there is none; the first that applies. */
  ghost predicate Judged(codec: Codec, proto: nat, tensor: nat, rest: seq<Byte>, r: Outcome) {
    if proto == 0 || proto > 104_857_600 then r == BadProtoSize
    else if tensor > 1_073_741_824 then r == BadTensorSize
    else if |rest| < proto + tensor then r == TooLong
    else
      match codec.decode(rest[..proto])
      case Garbled => r == Unparsable
      case OtherMessage => r == NotGemm
      case Gemm(fields) => r.Ok? && r.fields == fields && LaidOut(r.mats, 16 + proto, fields.sizes)
  }

  /** The reader's answer on every buffer with a header; without room for one it is refused as too small. */
  lemma {:induction false} ParseExactly(codec: Codec, prefix: seq<Byte>, proto: nat, tensor: nat, rest: seq<Byte>)
    requires |prefix| == 4 && proto < 0x1_0000_0000 && tensor < 0x1_0000_0000_0000_0000
    ensures Judged(codec, proto, tensor, rest, Parse(codec, Written(prefix, proto, tensor, rest)))
  {
    WrittenReads(prefix, proto, tensor, rest);
    if proto <= |rest| {
      match codec.decode(rest[..proto])
      case Gemm(fields) => SpansLaidOut(16 + proto, fields.sizes);
      case _ =>
    }
  }

  lemma {:induction false} TooSmallExactly(codec: Codec, buffer: seq<Byte>)
    ensures Parse(codec, buffer) == TooSmall <==> |buffer| < 16
  {
  }
}
