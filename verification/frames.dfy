/** The incremental decoder of Connect streams: five bytes of envelope (flags, big-endian length) and a
    payload, arriving in chunks of any size. */
module Frames {
  import opened Common

  const MAX_FRAME_BYTES: nat := 0x4000000

  const ENVELOPE: nat := 5

  datatype Frame = Frame(flags: byte, payload: seq<byte>)

  /** What is reported: a frame, a header with an impossible length, or what a stream ends in. */
  datatype FrameView =
    | Whole(index: nat, frame: Frame)
    | TooLong(index: nat, flags: byte, length: nat)
    | Incomplete(index: nat, rest: seq<byte>)

  // ---------------------------------------------------------------- the envelope

  function BigEndian(b: seq<byte>): (n: nat)
    requires |b| == 4
    ensures n < 0x1_0000_0000
  {
    ((b[0] as nat * 256 + b[1] as nat) * 256 + b[2] as nat) * 256 + b[3] as nat
  }

  function LengthBytes(n: nat): (b: seq<byte>)
    requires n < 0x1_0000_0000
    ensures |b| == 4
  {
    [(n / 0x100_0000) as byte, (n / 0x1_0000 % 256) as byte, (n / 0x100 % 256) as byte, (n % 256) as byte]
  }

  lemma LengthRoundTrip(n: nat)
    requires n < 0x1_0000_0000
    ensures BigEndian(LengthBytes(n)) == n
  {
    var b2, b1 := n / 0x100, n / 0x1_0000;
    assert b2 / 256 == b1 && b1 / 256 == n / 0x100_0000;
    assert n == b2 * 256 + n % 256 && b2 == b1 * 256 + b2 % 256 && b1 == b1 / 256 * 256 + b1 % 256;
  }

  function EncodeFrame(f: Frame): (s: seq<byte>)
    requires |f.payload| <= MAX_FRAME_BYTES
    ensures |s| == ENVELOPE + |f.payload|
  {
    [f.flags] + LengthBytes(|f.payload|) + f.payload
  }

  ghost predicate Encodable(frames: seq<Frame>) { forall f :: f in frames ==> |f.payload| <= MAX_FRAME_BYTES }

  ghost function Encode(frames: seq<Frame>): seq<byte>
    requires Encodable(frames)
  {
    if frames == [] then [] else EncodeFrame(frames[0]) + Encode(frames[1..])
  }

  // ---------------------------------------------------------------- parsing what is there

  datatype Parsed = Parsed(views: seq<FrameView>, rest: seq<byte>)

  predicate HasHeader(s: seq<byte>) { |s| >= ENVELOPE }

  function HeaderLength(s: seq<byte>): nat
    requires HasHeader(s)
  {
    BigEndian(s[1..5])
  }

  predicate Oversize(s: seq<byte>) { HasHeader(s) && HeaderLength(s) > MAX_FRAME_BYTES }

  predicate HasFrame(s: seq<byte>) { HasHeader(s) && !Oversize(s) && |s| >= ENVELOPE + HeaderLength(s) }

  function FirstFrame(s: seq<byte>): Frame
    requires HasFrame(s)
  {
    Frame(s[0], s[ENVELOPE..ENVELOPE + HeaderLength(s)])
  }

  function AfterFrame(s: seq<byte>): (rest: seq<byte>)
    requires HasFrame(s)
    ensures |rest| < |s|
  {
    s[ENVELOPE + HeaderLength(s)..]
  }

  /** The views of the bytes `s` when `index` frames have been reported, and what is kept. */
  function Parse(s: seq<byte>, index: nat, maxFrames: int): Parsed
    decreases |s|
  {
    if !HasHeader(s) || index >= maxFrames then Parsed([], s)
    else if Oversize(s) then Parsed([TooLong(index, s[0], HeaderLength(s))], [])
    else if !HasFrame(s) then Parsed([], s)
    else
      var tail := Parse(AfterFrame(s), index + 1, maxFrames);
      Parsed([Whole(index, FirstFrame(s))] + tail.views, tail.rest)
  }

  /** A decoder: what it holds back, and what it has reported. */
  datatype Decoder = Decoder(buffer: seq<byte>, views: seq<FrameView>)

  function Written(d: Decoder, payload: seq<byte>, maxFrames: int): Decoder {
    if payload == [] || |d.views| >= maxFrames then d
    else
      var p := Parse(d.buffer + payload, |d.views|, maxFrames);
      Decoder(p.rest, d.views + p.views)
  }

  function Closed(d: Decoder, maxFrames: int): Decoder {
    Decoder([], d.views + if d.buffer != [] && |d.views| < maxFrames then [Incomplete(|d.views|, d.buffer)] else [])
  }

  /** `views` so far and what `p` still reports are `before` and all that was to be reported. */
  predicate Continues(before: seq<FrameView>, all: Parsed, views: seq<FrameView>, p: Parsed) {
    before + all.views == views + p.views && all.rest == p.rest
  }

  lemma ParseFrame(s: seq<byte>, index: nat, maxFrames: int)
    requires HasFrame(s) && index < maxFrames
    ensures var p, q := Parse(s, index, maxFrames), Parse(AfterFrame(s), index + 1, maxFrames);
            p.views == [Whole(index, FirstFrame(s))] + q.views && p.rest == q.rest
  {
  }

  lemma ParseEnd(s: seq<byte>, index: nat, maxFrames: int)
    requires !HasFrame(s) || index >= maxFrames
    ensures Parse(s, index, maxFrames)
         == if index < maxFrames && Oversize(s) then Parsed([TooLong(index, s[0], HeaderLength(s))], [])
            else Parsed([], s)
  {
  }

  lemma MoveOn(before: seq<FrameView>, all: Parsed, views: seq<FrameView>, view: FrameView, p: Parsed, q: Parsed)
    requires Continues(before, all, views, p) && p.views == [view] + q.views && p.rest == q.rest
    ensures Continues(before, all, views + [view], q)
  {
    assert views + ([view] + q.views) == (views + [view]) + q.views;
  }

  class ConnectFrameDecoder {
    const maxFrames: int
    var buffer: seq<byte>
    var frameCount: nat
    /** What the callback has received. */
    var views: seq<FrameView>

    ghost predicate Valid()
      reads this
    {
      frameCount == |views|
    }

    ghost function Model(): Decoder
      reads this
    {
      Decoder(buffer, views)
    }

    constructor (maxFrames: int)
      ensures Valid() && Model() == Decoder([], []) && this.maxFrames == maxFrames
    {
      this.maxFrames := maxFrames;
      buffer, frameCount, views := [], 0, [];
    }

    method Emit(view: FrameView)
      requires Valid() && view.index == frameCount
      modifies this`frameCount, this`views
      ensures Valid() && views == old(views) + [view]
    {
      views := views + [view];
      frameCount := frameCount + 1;
    }

    /** One turn of the loop in Write: the frame at the front, a report of an impossible length, or nothing
        when the frame is not all there. */
    method DecodeNext() returns (more: bool)
      requires Valid() && HasHeader(buffer)
      modifies this`buffer, this`frameCount, this`views
      ensures Valid() && more == old(HasFrame(buffer))
      ensures more ==> buffer == old(AfterFrame(buffer)) && views == old(views + [Whole(|views|, FirstFrame(buffer))])
      ensures !more && old(Oversize(buffer))
              ==> buffer == [] && views == old(views + [TooLong(|views|, buffer[0], HeaderLength(buffer))])
      ensures !more && !old(Oversize(buffer)) ==> buffer == old(buffer) && views == old(views)
    {
      var flags := buffer[0];
      var length := HeaderLength(buffer);
      if length > MAX_FRAME_BYTES {
        Emit(TooLong(frameCount, flags, length));
        buffer := [];
        return false;
      }
      if |buffer| < 5 + length { return false; }
      var framePayload := buffer[5..5 + length];
      buffer := buffer[5 + length..];
      Emit(Whole(frameCount, Frame(flags, framePayload)));
      more := true;
    }

    method Write(payload: seq<byte>)
      requires Valid()
      modifies this`buffer, this`frameCount, this`views
      ensures Valid() && Model() == Written(old(Model()), payload, maxFrames)
    {
      if |payload| == 0 || frameCount >= maxFrames { return; }
      buffer := buffer + payload;
      ghost var before := views;
      ghost var all := Parse(buffer, frameCount, maxFrames);
      while |buffer| >= 5 && frameCount < maxFrames
        invariant Valid() && Continues(before, all, views, Parse(buffer, frameCount, maxFrames))
        decreases |buffer|
      {
        ghost var held, index := buffer, frameCount;
        var more := DecodeNext();
        if !more {
          ParseEnd(held, index, maxFrames);
          return;
        }
        ParseFrame(held, index, maxFrames);
        MoveOn(before, all, views[..index], Whole(index, FirstFrame(held)), Parse(held, index, maxFrames),
               Parse(buffer, frameCount, maxFrames));
      }
      ParseEnd(buffer, frameCount, maxFrames);
    }

    method Close()
      requires Valid()
      modifies this`buffer, this`frameCount, this`views
      ensures Valid() && Model() == Closed(old(Model()), maxFrames)
    {
      if |buffer| > 0 && frameCount < maxFrames { Emit(Incomplete(frameCount, buffer)); }
      buffer := [];
    }
  }

  // ---------------------------------------------------------------- chunks

  ghost predicate Bad(views: seq<FrameView>) { exists i :: 0 <= i < |views| && views[i].TooLong? }

  /** The bytes behind an impossible length that are thrown away with it. */
  function Dropped(s: seq<byte>, index: nat, maxFrames: int): seq<byte>
    decreases |s|
  {
    if !HasHeader(s) || index >= maxFrames then []
    else if Oversize(s) then s[ENVELOPE..]
    else if !HasFrame(s) then []
    else Dropped(AfterFrame(s), index + 1, maxFrames)
  }

  lemma MoreBytesSameHeader(s: seq<byte>, t: seq<byte>)
    requires HasHeader(s)
    ensures HasHeader(s + t) && HeaderLength(s + t) == HeaderLength(s) && (s + t)[0] == s[0]
    ensures HasFrame(s)
            ==> HasFrame(s + t) && FirstFrame(s + t) == FirstFrame(s) && AfterFrame(s + t) == AfterFrame(s) + t
  {
    assert (s + t)[1..5] == s[1..5];
    if HasFrame(s) {
      var n := ENVELOPE + HeaderLength(s);
      assert (s + t)[ENVELOPE..n] == s[ENVELOPE..n];
      assert (s + t)[n..] == s[n..] + t;
    }
  }

  lemma BadTail(v: FrameView, tail: seq<FrameView>)
    ensures Bad([v] + tail) <==> v.TooLong? || Bad(tail)
  {
    if v.TooLong? { assert ([v] + tail)[0].TooLong?; }
    if Bad(tail) {
      var i :| 0 <= i < |tail| && tail[i].TooLong?;
      assert ([v] + tail)[i + 1].TooLong?;
    }
  }

  /** `p` and `w` are the parses of some bytes and of more bytes; `q` goes on from where `p` stopped. */
  ghost predicate GoesOn(p: Parsed, dropped: seq<byte>, t: seq<byte>, q: Parsed, qDropped: seq<byte>, w: Parsed,
                         wDropped: seq<byte>) {
    && (Bad(p.views) ==> w == p && wDropped == dropped + t)
    && (!Bad(p.views) ==> w.views == p.views + q.views && w.rest == q.rest && wDropped == qDropped)
  }

  lemma GoesOnBehind(v: FrameView, p: Parsed, dropped: seq<byte>, t: seq<byte>, q: Parsed, qDropped: seq<byte>,
                     w: Parsed, wDropped: seq<byte>)
    requires !v.TooLong? && GoesOn(p, dropped, t, q, qDropped, w, wDropped)
    ensures GoesOn(Parsed([v] + p.views, p.rest), dropped, t, q, qDropped, Parsed([v] + w.views, w.rest), wDropped)
  {
    BadTail(v, p.views);
    assert [v] + (p.views + q.views) == ([v] + p.views) + q.views;
  }

  lemma OversizeMore(s: seq<byte>, t: seq<byte>, index: nat, maxFrames: int)
    requires index < maxFrames && Oversize(s)
    ensures Bad(Parse(s, index, maxFrames).views) && Parse(s + t, index, maxFrames) == Parse(s, index, maxFrames)
    ensures Dropped(s + t, index, maxFrames) == Dropped(s, index, maxFrames) + t
  {
    MoreBytesSameHeader(s, t);
    assert (s + t)[ENVELOPE..] == s[ENVELOPE..] + t;
    assert Parse(s, index, maxFrames).views[0].TooLong?;
  }

  /** What parsing `s` does is not undone by the bytes `t` behind it. */
  ghost predicate ParsesOn(s: seq<byte>, t: seq<byte>, index: nat, maxFrames: int) {
    var p := Parse(s, index, maxFrames);
    GoesOn(p, Dropped(s, index, maxFrames), t,
           Parse(p.rest + t, index + |p.views|, maxFrames), Dropped(p.rest + t, index + |p.views|, maxFrames),
           Parse(s + t, index, maxFrames), Dropped(s + t, index, maxFrames))
  }

  lemma FrameMore(s: seq<byte>, t: seq<byte>, index: nat, maxFrames: int)
    requires index < maxFrames && HasFrame(s) && ParsesOn(AfterFrame(s), t, index + 1, maxFrames)
    ensures ParsesOn(s, t, index, maxFrames)
  {
    MoreBytesSameHeader(s, t);
    var tail := Parse(AfterFrame(s), index + 1, maxFrames);
    GoesOnBehind(Whole(index, FirstFrame(s)), tail, Dropped(s, index, maxFrames), t,
                 Parse(tail.rest + t, index + 1 + |tail.views|, maxFrames),
                 Dropped(tail.rest + t, index + 1 + |tail.views|, maxFrames),
                 Parse(AfterFrame(s) + t, index + 1, maxFrames), Dropped(s + t, index, maxFrames));
  }

  lemma NothingMore(s: seq<byte>, t: seq<byte>, index: nat, maxFrames: int)
    requires index >= maxFrames || (!HasFrame(s) && !Oversize(s))
    ensures ParsesOn(s, t, index, maxFrames)
  {
    assert Parse(s, index, maxFrames) == Parsed([], s);
  }

  lemma {:induction false} ParseMore(s: seq<byte>, t: seq<byte>, index: nat, maxFrames: int)
    ensures ParsesOn(s, t, index, maxFrames)
    decreases |s|
  {
    if index >= maxFrames || (!HasFrame(s) && !Oversize(s)) {
      NothingMore(s, t, index, maxFrames);
    } else if Oversize(s) {
      OversizeMore(s, t, index, maxFrames);
    } else {
      ParseMore(AfterFrame(s), t, index + 1, maxFrames);
      FrameMore(s, t, index, maxFrames);
    }
  }

  function Flatten(chunks: seq<seq<byte>>): seq<byte> {
    if chunks == [] then [] else Flatten(chunks[..|chunks| - 1]) + chunks[|chunks| - 1]
  }

  /** A decoder that is given the chunks one after the other. */
  function Fed(chunks: seq<seq<byte>>, maxFrames: int): Decoder {
    if chunks == [] then Decoder([], [])
    else Written(Fed(chunks[..|chunks| - 1], maxFrames), chunks[|chunks| - 1], maxFrames)
  }

  /** Everything reported, to the end of the stream. */
  function Reported(chunks: seq<seq<byte>>, maxFrames: int): seq<FrameView> {
    Closed(Fed(chunks, maxFrames), maxFrames).views
  }

  /** No impossible length is reported before the limit with bytes of the stream still behind it. */
  ghost predicate Settled(s: seq<byte>, maxFrames: int) {
    var views := Parse(s, 0, maxFrames).views;
    !Bad(views) || |views| >= maxFrames || Dropped(s, 0, maxFrames) == []
  }

  /** The decoder's state is what the bytes so far determine. */
  ghost predicate Agrees(d: Decoder, s: seq<byte>, maxFrames: int) {
    var p := Parse(s, 0, maxFrames);
    d.views == p.views && (|d.views| < maxFrames ==> d.buffer == p.rest)
  }

  lemma SettledBefore(s: seq<byte>, t: seq<byte>, maxFrames: int)
    requires Settled(s + t, maxFrames)
    ensures Settled(s, maxFrames)
  {
    ParseMore(s, t, 0, maxFrames);
  }

  lemma {:induction false} PastTheLimit(s: seq<byte>, index: nat, maxFrames: int)
    ensures index >= maxFrames ==> Parse(s, index, maxFrames).views == []
    ensures index < maxFrames && Bad(Parse(s, index, maxFrames).views) ==> Parse(s, index, maxFrames).rest == []
    decreases |s|
  {
    if HasFrame(s) && index < maxFrames {
      BadTail(Whole(index, FirstFrame(s)), Parse(AfterFrame(s), index + 1, maxFrames).views);
      PastTheLimit(AfterFrame(s), index + 1, maxFrames);
    }
  }

  lemma WriteAgrees(d: Decoder, s: seq<byte>, t: seq<byte>, maxFrames: int)
    requires Agrees(d, s, maxFrames) && Settled(s + t, maxFrames)
    ensures Agrees(Written(d, t, maxFrames), s + t, maxFrames)
  {
    var p := Parse(s, 0, maxFrames);
    ParseMore(s, t, 0, maxFrames);
    if t == [] {
      assert s + t == s;
    } else if |d.views| >= maxFrames {
      if !Bad(p.views) { PastTheLimit(p.rest + t, |p.views|, maxFrames); }
    }
  }

  lemma {:induction false} FedAgrees(chunks: seq<seq<byte>>, maxFrames: int)
    requires Settled(Flatten(chunks), maxFrames)
    ensures Agrees(Fed(chunks, maxFrames), Flatten(chunks), maxFrames)
  {
    if chunks != [] {
      var init, last := chunks[..|chunks| - 1], chunks[|chunks| - 1];
      SettledBefore(Flatten(init), last, maxFrames);
      FedAgrees(init, maxFrames);
      WriteAgrees(Fed(init, maxFrames), Flatten(init), last, maxFrames);
    }
  }

  /** The views of the bytes as one piece. */
  function ReportOf(s: seq<byte>, maxFrames: int): seq<FrameView> {
    var p := Parse(s, 0, maxFrames);
    p.views + if p.rest != [] && |p.views| < maxFrames then [Incomplete(|p.views|, p.rest)] else []
  }

  lemma OnePiece(s: seq<byte>, maxFrames: int)
    ensures Reported([s], maxFrames) == ReportOf(s, maxFrames)
    ensures Flatten([s]) == s
  {
    assert [s][..0] == [];
    assert [] + s == s;
    assert Fed([s], maxFrames) == Written(Decoder([], []), s, maxFrames);
    if maxFrames <= 0 { PastTheLimit(s, 0, maxFrames); }
  }

  lemma TwoPieces(a: seq<byte>, b: seq<byte>, maxFrames: int)
    ensures Flatten([a, b]) == a + b
    ensures Fed([a, b], maxFrames) == Written(Fed([a], maxFrames), b, maxFrames)
  {
    assert [a, b][..1] == [a] && [a][..0] == [];
    assert [] + a == a;
    assert Flatten([a, b]) == Flatten([a]) + b && Flatten([a]) == Flatten([a][..0]) + a;
  }

  /** Bytes that are given to a decoder below its limit leave a trace. */
  lemma BytesLeaveATrace(s: seq<byte>, index: nat, maxFrames: int)
    requires s != [] && index < maxFrames
    ensures Parse(s, index, maxFrames).views != [] || Parse(s, index, maxFrames).rest == s
  {
  }

  lemma {:induction false} CutDropped(s: seq<byte>, index: nat, maxFrames: int)
    requires Bad(Parse(s, index, maxFrames).views)
    ensures var d := Dropped(s, index, maxFrames);
            && |d| <= |s| && s == s[..|s| - |d|] + d
            && Parse(s[..|s| - |d|], index, maxFrames) == Parse(s, index, maxFrames)
    decreases |s|
  {
    var d := Dropped(s, index, maxFrames);
    if Oversize(s) {
      assert s == s[..ENVELOPE] + d;
      MoreBytesSameHeader(s[..ENVELOPE], d);
    } else {
      var after := AfterFrame(s);
      BadTail(Whole(index, FirstFrame(s)), Parse(after, index + 1, maxFrames).views);
      CutDropped(after, index + 1, maxFrames);
      var n := |s| - |after|;
      var front := s[..n] + after[..|after| - |d|];
      assert s[n..] == after;
      assert s == s[..n] + after;
      assert s == front + d && s[..|s| - |d|] == front;
      FrontHasFrame(s, front);
    }
  }

  lemma FrontHasFrame(s: seq<byte>, front: seq<byte>)
    requires HasFrame(s) && front <= s && |s| - |AfterFrame(s)| <= |front|
    ensures HasFrame(front) && FirstFrame(front) == FirstFrame(s)
    ensures AfterFrame(front) == front[|s| - |AfterFrame(s)|..]
  {
    var t := s[|front|..];
    assert s == front + t;
    MoreBytesSameHeader(front, t);
  }

  /** How a stream is cut into chunks shows exactly if an impossible length is met before the limit with
      bytes behind it. */
  lemma ChunkingMattersIff(s: seq<byte>, maxFrames: int)
    ensures (exists chunks :: Flatten(chunks) == s && Reported(chunks, maxFrames) != Reported([s], maxFrames))
            <==> !Settled(s, maxFrames)
  {
    OnePiece(s, maxFrames);
    if Settled(s, maxFrames) {
      forall chunks | Flatten(chunks) == s ensures Reported(chunks, maxFrames) == Reported([s], maxFrames) {
        FedAgrees(chunks, maxFrames);
      }
    } else {
      var chunks := CutAtHeader(s, maxFrames);
      assert Flatten(chunks) == s && Reported(chunks, maxFrames) != Reported([s], maxFrames);
    }
  }

  /** Cut behind an impossible length, the stream reports more. */
  lemma CutAtHeader(s: seq<byte>, maxFrames: int) returns (chunks: seq<seq<byte>>)
    requires !Settled(s, maxFrames)
    ensures Flatten(chunks) == s && |Reported(chunks, maxFrames)| > |ReportOf(s, maxFrames)|
  {
    var d := Dropped(s, 0, maxFrames);
    CutDropped(s, 0, maxFrames);
    PastTheLimit(s, 0, maxFrames);
    var front := s[..|s| - |d|];
    TwoPieces(front, d, maxFrames);
    OneChunk(front, maxFrames);
    TraceIsReported(Fed([front], maxFrames), d, maxFrames);
    chunks := [front, d];
  }

  lemma TraceIsReported(d: Decoder, more: seq<byte>, maxFrames: int)
    requires d.buffer == [] && more != [] && |d.views| < maxFrames
    ensures |Closed(Written(d, more, maxFrames), maxFrames).views| > |d.views|
  {
    assert [] + more == more;
    BytesLeaveATrace(more, |d.views|, maxFrames);
  }

  lemma OneChunk(s: seq<byte>, maxFrames: int)
    requires s != [] && 0 < maxFrames
    ensures Fed([s], maxFrames) == Decoder(Parse(s, 0, maxFrames).rest, Parse(s, 0, maxFrames).views)
  {
    assert [s][..0] == [];
    assert [] + s == s;
    assert Fed([s], maxFrames) == Written(Decoder([], []), s, maxFrames);
  }

  // ---------------------------------------------------------------- decoding what was encoded

  ghost function Numbered(frames: seq<Frame>, index: nat): seq<FrameView> {
    seq(|frames|, i requires 0 <= i < |frames| => Whole(index + i, frames[i]))
  }

  lemma EncodedFrameIsThere(f: Frame, t: seq<byte>)
    requires |f.payload| <= MAX_FRAME_BYTES
    ensures HasFrame(EncodeFrame(f) + t) && FirstFrame(EncodeFrame(f) + t) == f && AfterFrame(EncodeFrame(f) + t) == t
  {
    var s := EncodeFrame(f) + t;
    LengthRoundTrip(|f.payload|);
    assert s[1..5] == LengthBytes(|f.payload|);
    assert s[ENVELOPE..ENVELOPE + |f.payload|] == f.payload;
    assert s[ENVELOPE + |f.payload|..] == t;
  }

  /** How many of `n` frames still fit below the limit. */
  function Fitting(n: nat, index: nat, maxFrames: int): nat
    requires index <= maxFrames
  {
    if n <= maxFrames - index then n else maxFrames - index
  }

  ghost predicate ParsesAs(p: Parsed, frames: seq<Frame>, tail: seq<byte>, index: nat, maxFrames: int)
    requires index <= maxFrames
  {
    var n := Fitting(|frames|, index, maxFrames);
    p.views == Numbered(frames[..n], index) && !Bad(p.views) && (index + n < maxFrames ==> p.rest == tail)
  }

  lemma ParsesAsBehind(f: Frame, p: Parsed, frames: seq<Frame>, tail: seq<byte>, index: nat, maxFrames: int)
    requires index < maxFrames && ParsesAs(p, frames, tail, index + 1, maxFrames)
    ensures ParsesAs(Parsed([Whole(index, f)] + p.views, p.rest), [f] + frames, tail, index, maxFrames)
  {
    var n := Fitting(|frames|, index + 1, maxFrames);
    BadTail(Whole(index, f), p.views);
    assert ([f] + frames)[..n + 1] == [f] + frames[..n];
    assert Numbered([f] + frames[..n], index) == [Whole(index, f)] + Numbered(frames[..n], index + 1);
  }

  /** Parsing an encoding and the beginning of one more frame. */
  lemma {:induction false} ParseEncoded(frames: seq<Frame>, tail: seq<byte>, index: nat, maxFrames: int)
    requires Encodable(frames) && !HasFrame(tail) && !Oversize(tail) && index <= maxFrames
    ensures ParsesAs(Parse(Encode(frames) + tail, index, maxFrames), frames, tail, index, maxFrames)
    decreases |frames|
  {
    if frames == [] {
      assert Encode(frames) + tail == tail;
    } else if index == maxFrames {
      PastTheLimit(Encode(frames) + tail, index, maxFrames);
    } else {
      var rest := Encode(frames[1..]) + tail;
      assert Encode(frames) + tail == EncodeFrame(frames[0]) + rest;
      EncodedFrameIsThere(frames[0], rest);
      ParseEncoded(frames[1..], tail, index + 1, maxFrames);
      ParseFrame(EncodeFrame(frames[0]) + rest, index, maxFrames);
      ParsesAsBehind(frames[0], Parse(rest, index + 1, maxFrames), frames[1..], tail, index, maxFrames);
      assert [frames[0]] + frames[1..] == frames;
    }
  }

  /** What should be reported of some frames and the beginning of one more: the frames in order up to
      the limit, and an incomplete one exactly if bytes remain below it. */
  ghost function Expected(frames: seq<Frame>, tail: seq<byte>, maxFrames: nat): seq<FrameView> {
    var n := Fitting(|frames|, 0, maxFrames);
    Numbered(frames[..n], 0) + if tail != [] && n < maxFrames then [Incomplete(n, tail)] else []
  }

  /** However an encoded list of frames is cut, and whatever beginning of one more follows, decoding
      inverts the encoding. */
  lemma {:induction false} DecodingInvertsEncoding(frames: seq<Frame>, tail: seq<byte>, chunks: seq<seq<byte>>,
                                                   maxFrames: nat)
    requires Encodable(frames) && !HasFrame(tail) && !Oversize(tail)
    requires Flatten(chunks) == Encode(frames) + tail
    ensures Reported(chunks, maxFrames) == Expected(frames, tail, maxFrames)
  {
    ParseEncoded(frames, tail, 0, maxFrames);
    FedAgrees(chunks, maxFrames);
  }
}
