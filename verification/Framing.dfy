/** The wire format of internal/protocol/frame.go: a self-resynchronising reader
    and the writer it must undo.

    `Read` is the value of one `ReadFrame` call on the bytes still unread; the
    method `ReadFrame` is the loop itself, over a consumed stream. */
module Framing {
  import opened Wrappers

  type Byte = b: int | 0 <= b < 256

  const MAGIC1: Byte := 0x94
  const MAGIC2: Byte := 0xC3
  const MAX_FRAME_SIZE := 512
  const HEADER_SIZE := 4

  datatype Stage = Start1 | Start2 | Length | Oversized | Payload

  datatype ReadResult =
    | Delivered(payload: seq<Byte>, rest: seq<Byte>)
    | Failed(stage: Stage)

  datatype WriteResult = Written(bytes: seq<Byte>) | TooLarge(size: nat)

  // ---------------------------------------------------------------- values

  /** binary.BigEndian.Uint16 */
  function Uint16(hi: Byte, lo: Byte): (n: nat)
    ensures n < 0x1_0000
  {
    (hi as int) * 256 + lo as int
  }

  /** A header that announces a deliverable payload. */
  predicate Header(s: seq<Byte>) {
    |s| >= HEADER_SIZE && s[0] == MAGIC1 && s[1] == MAGIC2 && 0 < Uint16(s[2], s[3]) <= MAX_FRAME_SIZE
  }

  /** How many bytes one turn of the reader's loop asks for. */
  function Stride(s: seq<Byte>): (k: nat)
    requires s != []
    ensures k > 0
    ensures Header(s) <==> k > HEADER_SIZE && k <= HEADER_SIZE + MAX_FRAME_SIZE
  {
    if s[0] != MAGIC1 then 1
    else if |s| == 1 || s[1] != MAGIC2 then 2
    else if |s| < HEADER_SIZE then HEADER_SIZE
    else HEADER_SIZE + Uint16(s[2], s[3])
  }

  /** Where a turn of the loop runs out of bytes. */
  function Shortfall(s: seq<Byte>): Stage {
    if s == [] then Start1
    else if |s| == 1 then Start2
    else if |s| < HEADER_SIZE then Length
    else if Header(s) then Payload
    else Oversized
  }

  function Read(s: seq<Byte>): (r: ReadResult)
    ensures r.Delivered? ==> |r.rest| < |s|
    decreases |s|
  {
    if s == [] || Stride(s) > |s| then Failed(Shortfall(s))
    else if Header(s) then Delivered(s[HEADER_SIZE..Stride(s)], s[Stride(s)..])
    else Read(s[Stride(s)..])
  }

  function Encode(p: seq<Byte>): seq<Byte>
    requires |p| <= MAX_FRAME_SIZE
  {
    [MAGIC1, MAGIC2, |p| / 256, |p| % 256] + p
  }

  /** The bytes on the wire: 0x94 0xC3, the length with its high byte first, payload. */
  lemma WireFormat(p: seq<Byte>)
    requires |p| <= 512
    ensures var w := Encode(p);
            && |w| == 4 + |p|
            && w[0] == 0x94 && w[1] == 0xC3 && w[2] as int * 0x100 + w[3] as int == |p|
            && w[4..] == p
  {
  }

  /** Bytes the reader passes over without delivering anything and without being
      left half-way through a header: console text, lone magic bytes, empty
      frames and complete oversized frames. */
  predicate Transparent(s: seq<Byte>)
    decreases |s|
  {
    s == [] || (!Header(s) && Stride(s) <= |s| && Transparent(s[Stride(s)..]))
  }

  lemma StrideIsLocal(s: seq<Byte>, t: seq<Byte>)
    requires s != [] && t != []
    requires Stride(s) <= |s| && s[..Stride(s)] <= t
    ensures Stride(t) == Stride(s) && (Header(t) <==> Header(s))
  {
    assert forall i :: 0 <= i < Stride(s) ==> s[..Stride(s)][i] == s[i];
  }

  lemma {:induction false} SkipTransparent(noise: seq<Byte>, tail: seq<Byte>)
    requires Transparent(noise)
    ensures Read(noise + tail) == Read(tail)
    decreases |noise|
  {
    if noise == [] {
      assert noise + tail == tail;
    } else {
      var s, k := noise + tail, Stride(noise);
      StrideIsLocal(noise, s);
      assert s[k..] == noise[k..] + tail;
      SkipTransparent(noise[k..], tail);
    }
  }

  /** Everything `Read` can deliver: a transparent prefix, one well-formed frame,
      and the untouched remainder. */
  lemma {:induction false} ReadInverse(s: seq<Byte>)
    requires Read(s).Delivered?
    ensures var r := Read(s);
            var k := |s| - |r.rest| - |r.payload| - HEADER_SIZE;
            && 1 <= |r.payload| <= MAX_FRAME_SIZE
            && 0 <= k <= |s|
            && Transparent(s[..k])
            && s == s[..k] + (Encode(r.payload) + r.rest)
    decreases |s|
  {
    if Header(s) {
      HeaderSplits(s);
      assert s[..0] == [];
    } else {
      var r, j := Read(s), Stride(s);
      ReadInverse(s[j..]);
      PrefixThrough(s, j, |s| - |r.rest| - |r.payload| - HEADER_SIZE, Encode(r.payload) + r.rest);
    }
  }

  lemma HeaderSplits(s: seq<Byte>)
    requires Header(s) && Stride(s) <= |s|
    ensures s == Encode(s[HEADER_SIZE..Stride(s)]) + s[Stride(s)..]
  {
    var p := s[HEADER_SIZE..Stride(s)];
    assert s[..HEADER_SIZE] == [MAGIC1, MAGIC2, |p| / 256, |p| % 256];
    assert s == s[..HEADER_SIZE] + p + s[Stride(s)..];
  }

  /** A stream that ends inside a frame fails at the part of the frame it ends in. */
  lemma CutFrameFails(p: seq<Byte>, n: nat)
    requires 0 < |p| <= 512 && n < 4 + |p|
    ensures Read(Encode(p)[..n]) ==
            Failed(if n == 0 then Start1 else if n == 1 then Start2 else if n < 4 then Length else Payload)
  {
    var s := Encode(p)[..n];
    if n >= 4 {
      assert s[2] == |p| / 256 && s[3] == |p| % 256;
    }
  }

  /** A stream that ends inside the body of an oversized frame fails there. */
  lemma CutOversizedFails(hi: Byte, lo: Byte, body: seq<Byte>)
    requires hi as int * 0x100 + lo as int > 512 && |body| < hi as int * 0x100 + lo as int
    ensures Read([0x94, 0xC3, hi, lo] + body) == Failed(Oversized)
  {
  }

  lemma PrefixThrough(s: seq<Byte>, j: nat, k: nat, tail: seq<Byte>)
    requires j <= k <= |s| && s != [] && j == Stride(s) && !Header(s)
    requires Transparent(s[j..][..k - j]) && s[j..] == s[j..][..k - j] + tail
    ensures Transparent(s[..k]) && s == s[..k] + tail
  {
    SplitAt(s, j, k, tail);
    if k != 0 {
      StrideIsLocal(s, s[..k]);
    }
  }

  lemma SplitAt<T>(s: seq<T>, j: nat, k: nat, tail: seq<T>)
    requires j <= k <= |s|
    requires s[j..] == s[j..][..k - j] + tail
    ensures s == s[..k] + tail && s[..k][j..] == s[j..][..k - j]
  {
    assert s == s[..j] + s[j..];
    assert s[..k] == s[..j] + s[j..][..k - j];
  }

  /** The reader finds a written frame behind noise exactly when the noise is
      transparent: the necessary and sufficient condition, whatever follows. */
  lemma FrameFoundIff(noise: seq<Byte>, p: seq<Byte>, rest: seq<Byte>)
    requires 1 <= |p| <= MAX_FRAME_SIZE
    ensures Read(noise + Encode(p) + rest) == Delivered(p, rest) <==> Transparent(noise)
  {
    var s, tail := noise + Encode(p) + rest, Encode(p) + rest;
    Regroup(noise, Encode(p), rest);
    if Transparent(noise) {
      SkipTransparent(noise, tail);
      ReadEncoded(p, rest);
    }
    if Read(s) == Delivered(p, rest) {
      ReadInverse(s);
      assert s[..|noise|] == noise;
    }
  }

  lemma ReadEncoded(p: seq<Byte>, rest: seq<Byte>)
    requires 1 <= |p| <= MAX_FRAME_SIZE
    ensures Read(Encode(p) + rest) == Delivered(p, rest)
  {
    var s := Encode(p) + rest;
    assert Stride(s) == HEADER_SIZE + |p|;
    assert s[HEADER_SIZE..HEADER_SIZE + |p|] == p;
    assert s[HEADER_SIZE + |p|..] == rest;
  }

  lemma {:induction false} PlainTextIsTransparent(s: seq<Byte>)
    requires MAGIC1 !in s
    ensures Transparent(s)
  {
    if s != [] {
      PlainTextIsTransparent(s[1..]);
    }
  }

  /** "Any bytes before the magic sequence are discarded" is too strong: one stray
      0x94 right before a frame makes the reader lose the whole frame. */
  lemma StrayMagicLosesFrame()
    ensures var frame := Encode([1]);
            Read(frame) == Delivered([1], []) && Read([MAGIC1] + frame) == Failed(Start1)
  {
    var p: seq<Byte> := [1];
    FrameFoundIff([], p, []);
    assert [] + Encode(p) + [] == Encode(p);
    var s := [MAGIC1] + Encode(p);
    PlainTextIsTransparent(s[2..]);
    SkipTransparent(s[2..], []);
    assert s[2..] + [] == s[2..];
  }

  /** A complete frame that declares more than 512 bytes is skipped whole. */
  lemma OversizedIsSkipped(hi: Byte, lo: Byte, body: seq<Byte>, tail: seq<Byte>)
    requires |body| == hi as int * 0x100 + lo as int > 512
    ensures Transparent([0x94, 0xC3, hi, lo] + body) && Read([0x94, 0xC3, hi, lo] + body + tail) == Read(tail)
  {
    var s := [0x94, 0xC3, hi, lo] + body;
    assert s[|s|..] == [];
    SkipTransparent(s, tail);
  }

  // ---------------------------------------------------------------- streams

  datatype Segment = Segment(noise: seq<Byte>, payload: seq<Byte>)

  predicate Sendable(segs: seq<Segment>) {
    forall g :: g in segs ==> Transparent(g.noise) && |g.payload| <= MAX_FRAME_SIZE
  }

  function Stream(segs: seq<Segment>): seq<Byte>
    requires Sendable(segs)
  {
    if segs == [] then [] else segs[0].noise + Encode(segs[0].payload) + Stream(segs[1..])
  }

  function NonEmpty(segs: seq<Segment>): seq<seq<Byte>> {
    if segs == [] then []
    else if segs[0].payload == [] then NonEmpty(segs[1..])
    else [segs[0].payload] + NonEmpty(segs[1..])
  }

  /** What a caller gets by calling `ReadFrame` until it fails. */
  function ReadAll(s: seq<Byte>): seq<seq<Byte>>
    decreases |s|
  {
    match Read(s)
    case Failed(_) => []
    case Delivered(payload, rest) => [payload] + ReadAll(rest)
  }

  /** Round trip over whole conversations: every non-empty payload written comes
      back once and in order, through any transparent noise before each frame. */
  lemma {:induction false} StreamRoundTrip(segs: seq<Segment>, tail: seq<Byte>)
    requires Sendable(segs)
    ensures ReadAll(Stream(segs) + tail) == NonEmpty(segs) + ReadAll(tail)
    decreases segs
  {
    hide Read, Transparent, ReadAll, Encode, Stream, NonEmpty;
    StreamHead(segs);
    if segs == [] {
      assert Stream(segs) + tail == tail && [] + ReadAll(tail) == ReadAll(tail);
    } else {
      var p, frame, rest := segs[0].payload, segs[0].noise + Encode(segs[0].payload), segs[1..];
      Regroup(frame, Stream(rest), tail);
      StreamRoundTrip(rest, tail);
      OneSegment(segs[0].noise, p, Stream(rest) + tail, Stream(segs) + tail);
      Regroup(if p == [] then [] else [p], NonEmpty(rest), ReadAll(tail));
    }
  }

  lemma StreamHead(segs: seq<Segment>)
    requires Sendable(segs)
    ensures segs == [] ==> Stream(segs) == [] && NonEmpty(segs) == []
    ensures segs != [] ==>
              && Stream(segs) == segs[0].noise + Encode(segs[0].payload) + Stream(segs[1..])
              && NonEmpty(segs) == (if segs[0].payload == [] then [] else [segs[0].payload]) + NonEmpty(segs[1..])
  {
    if segs != [] && segs[0].payload == [] {
      assert [] + NonEmpty(segs[1..]) == NonEmpty(segs[1..]);
    }
  }

  lemma OneSegment(noise: seq<Byte>, p: seq<Byte>, rest: seq<Byte>, whole: seq<Byte>)
    requires Transparent(noise) && |p| <= MAX_FRAME_SIZE
    requires whole == noise + Encode(p) + rest
    ensures ReadAll(whole) == (if p == [] then [] else [p]) + ReadAll(rest)
  {
    if p == [] {
      assert noise + Encode(p) + rest == noise + (Encode(p) + rest);
      SkipTransparent(noise, Encode(p) + rest);
      assert Encode(p)[HEADER_SIZE..] == [];
      assert Transparent(Encode(p));
      SkipTransparent(Encode(p), rest);
    } else {
      FrameFoundIff(noise, p, rest);
    }
  }

  // ---------------------------------------------------------------- the loop

  /** An io.Reader over bytes that have all arrived; `ReadFull` is io.ReadFull. */
  class ByteStream {
    const data: seq<Byte>
    var pos: nat

    ghost predicate Valid()
      reads this
    {
      pos <= |data|
    }

    ghost function Remaining(): seq<Byte>
      reads this
      requires Valid()
    {
      data[pos..]
    }

    constructor (data: seq<Byte>)
      ensures Valid() && Remaining() == data
    {
      this.data := data;
      this.pos := 0;
    }

    method ReadFull(n: nat) returns (ok: bool, bytes: seq<Byte>)
      requires Valid()
      modifies this
      ensures Valid()
      ensures ok == (n <= |data| - old(pos))
      ensures ok ==> pos == old(pos) + n && bytes == data[old(pos)..pos]
      ensures !ok ==> pos == |data|
    {
      if n <= |data| - pos {
        ok, bytes := true, data[pos..pos + n];
        pos := pos + n;
      } else {
        ok, bytes := false, [];
        pos := |data|;
      }
    }
  }

  lemma SliceOfDrop<T>(d: seq<T>, at: nat, lo: nat, hi: nat)
    requires lo <= hi && at + hi <= |d|
    ensures d[at..][lo..hi] == d[at + lo..at + hi]
    ensures d[at..][hi..] == d[at + hi..]
  {
  }

  /** One turn of the loop in `ReadFrame`: `None` is the source's `continue`. */
  method ReadTurn(r: ByteStream) returns (out: Option<ReadResult>)
    requires r.Valid()
    modifies r
    ensures r.Valid()
    ensures var s := old(r.Remaining());
            if s == [] || Stride(s) > |s| then
              out == Some(Failed(Shortfall(s))) && r.Remaining() == []
            else
              && r.Remaining() == s[Stride(s)..]
              && out == if Header(s) then Some(Delivered(s[HEADER_SIZE..Stride(s)], s[Stride(s)..])) else None
  {
    ghost var at, s := r.pos, r.Remaining();
    var ok, buf := r.ReadFull(1);
    if !ok {
      return Some(Failed(Start1));
    }
    if buf[0] != MAGIC1 {
      return None;
    }
    ok, buf := r.ReadFull(1);
    if !ok {
      return Some(Failed(Start2));
    }
    if buf[0] != MAGIC2 {
      return None;
    }
    ok, buf := r.ReadFull(2);
    if !ok {
      return Some(Failed(Length));
    }
    var length := Uint16(buf[0], buf[1]);
    assert buf[0] == s[2] && buf[1] == s[3];
    if length > MAX_FRAME_SIZE {
      ok, buf := r.ReadFull(length);
      return if ok then None else Some(Failed(Oversized));
    }
    if length == 0 {
      return None;
    }
    ok, buf := r.ReadFull(length);
    if !ok {
      return Some(Failed(Payload));
    }
    SliceOfDrop(r.data, at, HEADER_SIZE, HEADER_SIZE + length);
    return Some(Delivered(buf, r.data[r.pos..]));
  }

  method ReadFrame(r: ByteStream) returns (res: ReadResult)
    requires r.Valid()
    modifies r
    ensures r.Valid()
    ensures res == Read(old(r.Remaining()))
    ensures r.Remaining() == if res.Delivered? then res.rest else []
  {
    var out := None;
    while out == None
      invariant r.Valid()
      invariant out == None ==> Read(old(r.Remaining())) == Read(r.Remaining())
      invariant out.Some? ==> out.value == Read(old(r.Remaining()))
      invariant out.Some? ==> r.Remaining() == if out.value.Delivered? then out.value.rest else []
      decreases out == None, |r.Remaining()|
    {
      out := ReadTurn(r);
    }
    return out.value;
  }

  method WriteFrame(payload: seq<Byte>) returns (res: WriteResult)
    ensures |payload| > 512 ==> res == TooLarge(|payload|)
    ensures |payload| <= 512 ==> res == Written(Encode(payload))
    ensures |payload| <= 512 ==>
              res == Written([0x94, 0xC3, |payload| / 0x100, |payload| % 0x100] + payload)
  {
    if |payload| > MAX_FRAME_SIZE {
      return TooLarge(|payload|);
    }
    var frame := new Byte[HEADER_SIZE + |payload|];
    frame[0] := MAGIC1;
    frame[1] := MAGIC2;
    frame[2] := |payload| / 256;
    frame[3] := |payload| % 256;
    forall i | 0 <= i < |payload| {
      frame[HEADER_SIZE + i] := payload[i];
    }
    assert frame[..] == Encode(payload);
    res := Written(frame[..]);
  }
}
