/** Cutting a byte stream into length-prefixed messages, however it arrives. */
module Framing {
  import opened Bytes
  import opened Wire

  /** A message with its length prefix. */
  predicate IsFrame(f: seq<Byte>) {
    |f| >= 4 && |f| == FromBig(f[..4]) + 4
  }

  /** No whole message at the front. */
  predicate Incomplete(buffer: seq<Byte>) {
    |buffer| < 4 || |buffer| < FromBig(buffer[..4]) + 4
  }

  /** The whole messages at the front of a buffer, and what is left. */
  function Cut(buffer: seq<Byte>): (seq<seq<Byte>>, seq<Byte>)
    decreases |buffer|
  {
    if Incomplete(buffer) then ([], buffer)
    else
      var n := FromBig(buffer[..4]) + 4;
      var (rest, left) := Cut(buffer[n..]);
      ([buffer[..n]] + rest, left)
  }

  ghost predicate AllFrames(fs: seq<seq<Byte>>) {
    forall i | 0 <= i < |fs| :: IsFrame(fs[i])
  }

  lemma {:induction false} ConcatCons(f: seq<Byte>, fs: seq<seq<Byte>>)
    ensures Concat([f] + fs) == f + Concat(fs)
  {
    if fs == [] {
      assert [f] + fs == [f] && [f][..0] == [];
    } else {
      var n := |fs| - 1;
      assert ([f] + fs)[..n + 1] == [f] + fs[..n];
      ConcatCons(f, fs[..n]);
      assert f + (Concat(fs[..n]) + fs[n]) == f + Concat(fs[..n]) + fs[n];
    }
  }

  lemma {:induction false} FirstFrame(buffer: seq<Byte>, n: nat)
    requires !Incomplete(buffer) && n == FromBig(buffer[..4]) + 4
    ensures IsFrame(buffer[..n]) && buffer == buffer[..n] + buffer[n..]
  {
    assert buffer[..n][..4] == buffer[..4];
  }

  /** Cutting loses nothing, yields whole messages and keeps only an incomplete one. */
  lemma {:induction false} CutSound(buffer: seq<Byte>)
    ensures buffer == Concat(Cut(buffer).0) + Cut(buffer).1
    ensures AllFrames(Cut(buffer).0) && Incomplete(Cut(buffer).1)
    decreases |buffer|
  {
    if Incomplete(buffer) {
      assert buffer == [] + buffer;
    } else {
      var n := FromBig(buffer[..4]) + 4;
      FirstFrame(buffer, n);
      var first, second := buffer[..n], buffer[n..];
      CutSound(second);
      Glue(first, Cut(second).0, Cut(second).1, second);
    }
  }

  lemma {:induction false} Glue(first: seq<Byte>, rest: seq<seq<Byte>>, left: seq<Byte>, second: seq<Byte>)
    requires second == Concat(rest) + left && IsFrame(first) && AllFrames(rest)
    ensures first + second == Concat([first] + rest) + left && AllFrames([first] + rest)
  {
    ConcatCons(first, rest);
  }

  lemma {:induction false} CutOne(f: seq<Byte>, t: seq<Byte>)
    requires IsFrame(f)
    ensures Cut(f + t) == ([f] + Cut(t).0, Cut(t).1)
  {
    assert (f + t)[..4] == f[..4] && (f + t)[..|f|] == f && (f + t)[|f|..] == t;
  }

  /** Whole messages at the front are cut off one by one. */
  lemma {:induction false} CutFrames(fs: seq<seq<Byte>>, t: seq<Byte>)
    requires AllFrames(fs)
    ensures Cut(Concat(fs) + t) == (fs + Cut(t).0, Cut(t).1)
  {
    if fs == [] {
      assert Concat(fs) + t == t && fs + Cut(t).0 == Cut(t).0;
    } else {
      var n := |fs| - 1;
      CutFrames(fs[..n], fs[n] + t);
      CutOne(fs[n], t);
      assert Concat(fs[..n]) + (fs[n] + t) == Concat(fs) + t;
      assert fs[..n] + ([fs[n]] + Cut(t).0) == fs + Cut(t).0;
    }
  }

  /** A connection: what it has dispatched and what it still holds. */
  datatype Receiver = Receiver(dispatched: seq<seq<Byte>>, held: seq<Byte>)

  function Arrive(r: Receiver, chunk: seq<Byte>): Receiver {
    var (done, left) := Cut(r.held + chunk);
    Receiver(r.dispatched + done, left)
  }

  function ArriveAll(chunks: seq<seq<Byte>>): Receiver {
    if chunks == [] then Receiver([], [])
    else Arrive(ArriveAll(chunks[..|chunks| - 1]), chunks[|chunks| - 1])
  }

  /** However the stream is split into arrivals, the result is that of the whole stream at once. */
  lemma {:induction false} SplittingDoesNotMatter(chunks: seq<seq<Byte>>)
    ensures ArriveAll(chunks) == Receiver(Cut(Concat(chunks)).0, Cut(Concat(chunks)).1)
  {
    if chunks != [] {
      var n := |chunks| - 1;
      SplittingDoesNotMatter(chunks[..n]);
      var before := Concat(chunks[..n]);
      var (done, left) := Cut(before);
      CutSound(before);
      CutFrames(done, left + chunks[n]);
      assert Concat(done) + (left + chunks[n]) == before + chunks[n];
    }
  }

  /** The part of a frame that has arrived is incomplete until all of it has. */
  lemma {:induction false} PartIsIncomplete(f: seq<Byte>, part: seq<Byte>)
    requires IsFrame(f) && part < f
    ensures Incomplete(part)
  {
    if |part| >= 4 {
      assert part[..4] == f[..4];
    }
  }

  /** A prefix of a stream of frames is some whole frames and a proper part of the next. */
  lemma {:induction false} PrefixOfStream(fs: seq<seq<Byte>>, n: nat) returns (k: nat, part: seq<Byte>)
    requires AllFrames(fs) && n <= |Concat(fs)|
    ensures k <= |fs| && Concat(fs)[..n] == Concat(fs[..k]) + part && Incomplete(part)
    ensures k < |fs| ==> part < fs[k]
    ensures k == |fs| ==> part == []
  {
    if fs == [] {
      return 0, [];
    }
    var m := |fs| - 1;
    var before := Concat(fs[..m]);
    if n < |before| {
      k, part := PrefixOfStream(fs[..m], n);
      assert fs[..m][..k] == fs[..k] && Concat(fs)[..n] == before[..n];
    } else if n < |Concat(fs)| {
      k, part := m, fs[m][..n - |before|];
      PartIsIncomplete(fs[m], part);
      assert Concat(fs)[..n] == before + part;
    } else {
      k, part := |fs|, [];
      assert fs[..k] == fs && Concat(fs)[..n] == Concat(fs) + [];
    }
  }

  /**
   However a stream of frames is split into arrivals, and however much of it has arrived,
   exactly the frames that are complete have been dispatched, in order, and only the
   incomplete one is held.
   */
  lemma {:induction false} DispatchesWholeFrames(fs: seq<seq<Byte>>, chunks: seq<seq<Byte>>)
    returns (k: nat, part: seq<Byte>)
    requires AllFrames(fs) && Concat(chunks) <= Concat(fs)
    ensures k <= |fs| && ArriveAll(chunks) == Receiver(fs[..k], part)
    ensures Concat(chunks) == Concat(fs[..k]) + part
    ensures if k < |fs| then part < fs[k] else part == []
  {
    k, part := PrefixOfStream(fs, |Concat(chunks)|);
    SplittingDoesNotMatter(chunks);
    assert Concat(fs)[..|Concat(chunks)|] == Concat(chunks);
    CutFrames(fs[..k], part);
    assert fs[..k] + [] == fs[..k];
  }

  /** Once the whole stream has arrived, every frame has been dispatched and nothing is held. */
  lemma {:induction false} DispatchesAll(fs: seq<seq<Byte>>, chunks: seq<seq<Byte>>)
    requires AllFrames(fs) && Concat(chunks) == Concat(fs)
    ensures ArriveAll(chunks) == Receiver(fs, [])
  {
    SplittingDoesNotMatter(chunks);
    CutFrames(fs, []);
    assert Concat(fs) + [] == Concat(fs) && fs + [] == fs;
  }

  function Frames(codec: Codec, ps: seq<Part>): (fs: seq<seq<Byte>>)
    ensures |fs| == |ps|
  {
    seq(|ps|, i requires 0 <= i < |ps| => Frame(codec, ps[i]))
  }

  ghost predicate Sendable(codec: Codec, p: Part) {
    && Fits(codec, p) && NullsAreEmpty(p.mats)
    && |Message(codec, p)| <= MAX_PROTO && TensorSize(p.mats) <= MAX_TENSOR
  }

  /** Partitions serialized one after the other arrive as they were, whatever the arrivals look like. */
  lemma {:induction false} StreamRoundTrip(codec: Codec, ps: seq<Part>, chunks: seq<seq<Byte>>)
    requires Invertible(codec) && forall i | 0 <= i < |ps| :: Sendable(codec, ps[i])
    requires Concat(chunks) == Concat(Frames(codec, ps))
    ensures ArriveAll(chunks) == Receiver(Frames(codec, ps), [])
    ensures forall i | 0 <= i < |ps| ::
              var f := Frames(codec, ps)[i];
              var r := Parse(codec, f);
              r.Ok? && r.fields == ps[i].fields.(sizes := Sizes(ps[i].mats)) && AllHold(f, r.mats, ps[i].mats)
  {
    var fs := Frames(codec, ps);
    forall i | 0 <= i < |ps|
      ensures IsFrame(fs[i])
    {
      PrefixIsLength(codec, ps[i]);
    }
    DispatchesAll(fs, chunks);
    forall i | 0 <= i < |ps|
      ensures var r := Parse(codec, fs[i]);
              r.Ok? && r.fields == ps[i].fields.(sizes := Sizes(ps[i].mats)) && AllHold(fs[i], r.mats, ps[i].mats)
    {
      RoundTrip(codec, ps[i]);
    }
  }

  // --------------------------------------------------------------------------
  // The receive loop
  // --------------------------------------------------------------------------

  /** Of the bytes at the start, the frames `done` are off and `rest` is left. */
  ghost predicate Draining(start: seq<Byte>, done: seq<seq<Byte>>, rest: seq<Byte>) {
    Cut(start).0 == done + Cut(rest).0 && Cut(start).1 == Cut(rest).1
  }

  lemma {:induction false} DrainNext(start: seq<Byte>, done: seq<seq<Byte>>, rest: seq<Byte>, size: nat)
    requires Draining(start, done, rest) && 4 <= size <= |rest| && size == FromBig(rest[..4]) + 4
    ensures Draining(start, done + [rest[..size]], rest[size..])
  {
  }

  lemma {:induction false} Drained(start: seq<Byte>, done: seq<seq<Byte>>, rest: seq<Byte>)
    requires Draining(start, done, rest) && Incomplete(rest)
    ensures Cut(start) == (done, rest)
  {
    assert Cut(rest).0 == [] && done + [] == done;
  }

  class Connection {
    var inbuf: seq<Byte>
    var dispatched: seq<seq<Byte>>

    function State(): Receiver
      reads this
    {
      Receiver(dispatched, inbuf)
    }

    constructor ()
      ensures State() == Receiver([], [])
    {
      inbuf, dispatched := [], [];
    }

    /** Copies up to four bytes out of the buffer without removing them; missing bytes stay zero. */
    method Peek() returns (packsize: nat)
      ensures |inbuf| >= 4 ==> packsize == FromBig(inbuf[..4])
    {
      var n := if |inbuf| < 4 then |inbuf| else 4;
      var raw: seq<Byte> := inbuf[..n] + seq(4 - n, _ => 0);
      packsize := FromBig(raw);
      assert n == 4 ==> raw == inbuf[..4];
    }

    /** Dispatches whole messages until none is left at the front. */
    method RequestCb()
      modifies this
      ensures State() == Arrive(old(State()), [])
    {
      ghost var start: seq<Byte>, done: seq<seq<Byte>> := inbuf, [];
      assert inbuf + [] == inbuf;
      while true
        invariant dispatched == old(dispatched) + done && Draining(start, done, inbuf)
        decreases |inbuf|
      {
        var readable := |inbuf|;
        var packsize := Peek();
        var datasize := packsize + 4;
        if readable < datasize {
          Drained(start, done, inbuf);
          return;
        }
        DrainNext(start, done, inbuf, datasize);
        done := done + [inbuf[..datasize]];
        dispatched := dispatched + [inbuf[..datasize]];
        inbuf := inbuf[datasize..];
      }
    }

    method OnData(chunk: seq<Byte>)
      modifies this
      ensures State() == Arrive(old(State()), chunk)
    {
      inbuf := inbuf + chunk;
      RequestCb();
      assert old(inbuf) + chunk + [] == old(inbuf) + chunk;
    }
  }
}
