/** The WebP container filter: the RIFF layout and VP8X header of sections 2.3 and 2.7 of RFC 9649. */
module WebP {
  import opened Bytes
  import opened Tiff

  const MAX_PIXELS := 20_000_000

  const RIFF: Word := 0x5249_4646 // "RIFF"
  const WEBP: Word := 0x5745_4250 // "WEBP"
  const VP8X: Word := 0x5650_3858 // "VP8X"
  const VP8: Word := 0x5650_3820 // "VP8 "
  const VP8L: Word := 0x5650_384C // "VP8L"
  const ALPH: Word := 0x414C_5048 // "ALPH"
  const ICCP: Word := 0x4943_4350 // "ICCP"
  const EXIF: Word := 0x4558_4946 // "EXIF"
  const ANIM: Word := 0x414E_494D // "ANIM"
  const ANMF: Word := 0x414E_4D46 // "ANMF"

  datatype Size = Size(width: nat, height: nat)

  /** Reading the size of a frame is a parameter: the results hold for every decoder. */
  type Decoder = bytes -> Option<Size>

  predicate TooLarge(s: Size) {
    s.width * s.height > MAX_PIXELS
  }

  /** A chunk; its four-letter kind is read as one big-endian number. `pad` follows an odd payload. */
  datatype Chunk = Chunk(kind: Word, payload: bytes, pad: bytes)

  predicate ValidChunk(c: Chunk) {
    |c.payload| < 0x1_0000_0000 && |c.pad| == |c.payload| % 2
  }

  predicate AllValid(cs: seq<Chunk>) {
    forall i | 0 <= i < |cs| :: ValidChunk(cs[i])
  }

  function Encode(c: Chunk): (b: bytes)
    requires ValidChunk(c)
    ensures |b| == ChunkSize(c)
  {
    PutBE32(c.kind) + PutLE32(|c.payload|) + c.payload + c.pad
  }

  function ChunkSize(c: Chunk): nat {
    8 + |c.payload| + |c.pad|
  }

  function Serialize(cs: seq<Chunk>): bytes
    requires AllValid(cs)
  {
    if cs == [] then [] else Encode(cs[0]) + Serialize(cs[1..])
  }

  function ParseChunk(s: bytes): (r: Option<Chunk>)
    ensures r.Some? ==> ValidChunk(r.value) && ChunkSize(r.value) <= |s|
  {
    if |s| < 8 then None else
    var n := U32(Little, s, 4);
    if n > |s| - 8 || 8 + n + n % 2 > |s| then None else
    Some(Chunk(U32(Big, s, 0), s[8..8 + n], s[8 + n..8 + n + n % 2]))
  }

  /** The chunks of s, up to its end or to the first that does not fit. */
  datatype Listing = Listing(chunks: seq<Chunk>, complete: bool)

  function Parse(s: bytes): (r: Listing)
    ensures AllValid(r.chunks)
    decreases |s|
  {
    if s == [] then Listing([], true) else
    match ParseChunk(s)
    case None => Listing([], false)
    case Some(c) => var r := Parse(s[ChunkSize(c)..]); Listing([c] + r.chunks, r.complete)
  }

  lemma ParseChunkEncode(c: Chunk, rest: bytes)
    requires ValidChunk(c)
    ensures ParseChunk(Encode(c) + rest) == Some(c)
    ensures (Encode(c) + rest)[ChunkSize(c)..] == rest
  {
    var s, n := Encode(c) + rest, |c.payload|;
    assert s[..4] == PutBE32(c.kind);
    assert U32(Big, s, 0) == c.kind;
    assert s[4..8] == PutLE32(n);
    assert U32(Little, s, 4) == n;
    assert s[8..8 + n] == c.payload;
    assert s[8 + n..8 + n + n % 2] == c.pad;
  }

  lemma EncodeParseChunk(s: bytes)
    requires ParseChunk(s).Some?
    ensures var c := ParseChunk(s).value; s == Encode(c) + s[ChunkSize(c)..]
  {
    hide PutBE32, PutLE32, U32;
    var n := |ParseChunk(s).value.payload|;
    BE32Unique(s[0..4]);
    LE32Unique(s[4..8]);
    SlicedRead(Big, s, 0);
    SlicedRead(Little, s, 4);
    FiveParts(s, 8 + n, 8 + n + n % 2);
  }

  lemma FiveParts(s: bytes, i: nat, j: nat)
    requires 8 <= i <= j <= |s|
    ensures s == s[0..4] + s[4..8] + s[8..i] + s[i..j] + s[j..]
  {
  }

  /** Reading back written chunks gives the same chunks. */
  lemma {:induction false} ParseSerialize(cs: seq<Chunk>)
    requires AllValid(cs)
    ensures Parse(Serialize(cs)) == Listing(cs, true)
  {
    hide Encode, ParseChunk;
    if cs != [] {
      ParseChunkEncode(cs[0], Serialize(cs[1..]));
      ParseSerialize(cs[1..]);
      assert [cs[0]] + cs[1..] == cs;
    }
  }

  /** A complete listing is exactly what its chunks write. */
  lemma {:induction false} SerializeParse(s: bytes)
    requires Parse(s).complete
    ensures Serialize(Parse(s).chunks) == s
    decreases |s|
  {
    hide Encode, ParseChunk;
    if s != [] {
      EncodeParseChunk(s);
      var c := ParseChunk(s).value;
      SerializeParse(s[ChunkSize(c)..]);
      assert Parse(s).chunks[1..] == Parse(s[ChunkSize(c)..]).chunks;
    }
  }

  // ----- The filter, on chunks -----

  /** The EXIF (8) and XMP (4) bits of the VP8X flags. */
  function ClearFlags(flags: byte): byte {
    flags / 16 * 16 + flags % 4
  }

  function SetExif(flags: byte): byte {
    if flags / 8 % 2 == 1 then flags else flags + 8
  }

  predicate HasExifFlag(c: Chunk)
    requires |c.payload| > 0
  {
    c.payload[0] / 8 % 2 == 1
  }

  predicate HasXmpFlag(c: Chunk)
    requires |c.payload| > 0
  {
    c.payload[0] / 4 % 2 == 1
  }

  /** Ten bytes with the reserved and animation bits clear. */
  predicate ValidHeader(p: bytes) {
    |p| == 10 && p[0] / 64 == 0 && p[0] % 4 == 0 && p[1] == p[2] == p[3] == 0
  }

  function Canvas(p: bytes): Size
    requires |p| == 10
  {
    Size(1 + Quad(0, p[6], p[5], p[4]), 1 + Quad(0, p[9], p[8], p[7]))
  }

  function ClearHeader(c: Chunk): Chunk
    requires |c.payload| > 0
  {
    c.(payload := c.payload[0 := ClearFlags(c.payload[0])])
  }

  function MarkHeader(c: Chunk): Chunk
    requires |c.payload| > 0
  {
    c.(payload := c.payload[0 := SetExif(c.payload[0])])
  }

  predicate IsFrame(kind: Word) {
    kind == VP8 || kind == VP8L
  }

  predicate Copied(kind: Word) {
    IsFrame(kind) || kind == ALPH || kind == ICCP
  }

  /** A file holding only this frame. */
  function FrameFile(c: Chunk): bytes
    requires ValidChunk(c)
  {
    PutBE32(RIFF) + PutLE32((ChunkSize(c) + 4) % 0x1_0000_0000) + PutBE32(WEBP) + Encode(c)
  }

  /** The only EXIF chunk the filter ever writes. */
  function CleanExif(o: nat): Chunk
    requires o < 0x1_0000
  {
    Chunk(EXIF, OrientationExif(o), [])
  }

  /** What has been met so far: the VP8X canvas, the frame, an EXIF chunk and one that was kept. */
  datatype Seen = Seen(canvas: Option<Size>, frame: Option<Size>, seenExif: bool, hasExif: bool)

  const NOTHING := Seen(None, None, false, false)

  datatype Outcome = Outcome(chunks: seq<Chunk>, seen: Seen)

  function FilterChunk(c: Chunk, first: bool, v: Seen, decode: Decoder): (r: Result<Outcome>)
    requires ValidChunk(c)
    ensures r.Ok? ==> |r.value.chunks| <= 1 && AllValid(r.value.chunks)
  {
    if c.kind == VP8X then
      if v.canvas.Some? || !first || !ValidHeader(c.payload) then Err(Invalid)
      else if TooLarge(Canvas(c.payload)) then Err(Limit)
      else Ok(Outcome([ClearHeader(c)], v.(canvas := Some(Canvas(c.payload)))))
    else if IsFrame(c.kind) then
      if v.frame.Some? then Err(Invalid) else
      match decode(FrameFile(c))
      case None => Err(Invalid)
      case Some(size) => if TooLarge(size) then Err(Limit) else Ok(Outcome([c], v.(frame := Some(size))))
    else if Copied(c.kind) then Ok(Outcome([c], v))
    else if c.kind == EXIF then
      if v.seenExif then Err(Invalid) else
      match OrientationOf(c.payload)
      case Err(e) => Err(e)
      case Ok(o) =>
        OrientationRange(c.payload);
        if o != 0 then Ok(Outcome([CleanExif(o)], v.(seenExif := true, hasExif := true)))
        else Ok(Outcome([], v.(seenExif := true)))
    else if c.kind == ANIM || c.kind == ANMF then Err(Invalid)
    else Ok(Outcome([], v))
  }

  function FilterChunks(cs: seq<Chunk>, first: bool, v: Seen, decode: Decoder): (r: Result<Outcome>)
    requires AllValid(cs)
    ensures r.Ok? ==> AllValid(r.value.chunks)
  {
    if cs == [] then Ok(Outcome([], v)) else
    match FilterChunk(cs[0], first, v, decode)
    case Err(e) => Err(e)
    case Ok(head) =>
      match FilterChunks(cs[1..], false, head.seen, decode)
      case Err(e) => Err(e)
      case Ok(tail) => Ok(Outcome(head.chunks + tail.chunks, tail.seen))
  }

  /** The VP8X chunk, if any, is the first one written and has its flag bits clear. */
  predicate HeaderFirst(cs: seq<Chunk>, v: Seen) {
    v.canvas.Some? ==> cs != [] && cs[0].kind == VP8X && |cs[0].payload| == 10
  }

  /** The checks and the patch after the last chunk. */
  function Finish(o: Outcome): (r: Result<seq<Chunk>>)
    requires AllValid(o.chunks) && HeaderFirst(o.chunks, o.seen)
    ensures r.Ok? ==> AllValid(r.value)
  {
    var v := o.seen;
    if v.frame.None? || (v.canvas.Some? && v.canvas != v.frame) then Err(Invalid)
    else if !v.hasExif then Ok(o.chunks)
    else if v.canvas.None? then Err(Invalid)
    else Ok(o.chunks[0 := MarkHeader(o.chunks[0])])
  }

  /** Only a VP8X chunk sets the canvas, and only in front. */
  lemma CanvasSetByHeader(c: Chunk, first: bool, v: Seen, decode: Decoder)
    requires ValidChunk(c) && FilterChunk(c, first, v, decode).Ok?
    ensures var o := FilterChunk(c, first, v, decode).value;
            if c.kind == VP8X then first && v.canvas.None? && o.seen.canvas.Some? && HeaderFirst(o.chunks, o.seen)
            else o.seen.canvas == v.canvas
  {
  }

  lemma {:induction false} HeaderStaysFirst(cs: seq<Chunk>, first: bool, v: Seen, decode: Decoder)
    requires AllValid(cs) && FilterChunks(cs, first, v, decode).Ok?
    ensures var o := FilterChunks(cs, first, v, decode).value;
            if first && v.canvas.None? then HeaderFirst(o.chunks, o.seen) else o.seen.canvas == v.canvas
  {
    hide FilterChunk;
    if cs != [] {
      CanvasSetByHeader(cs[0], first, v, decode);
      var head := FilterChunk(cs[0], first, v, decode).value;
      HeaderStaysFirst(cs[1..], false, head.seen, decode);
    }
  }

  /** Filtering the chunks of s behind those already written. */
  function FilterRest(done: seq<Chunk>, s: bytes, first: bool, v: Seen, decode: Decoder): (r: Result<seq<Chunk>>)
    requires AllValid(done)
    requires if first then done == [] && v.canvas.None? else HeaderFirst(done, v)
    ensures r.Ok? ==> AllValid(r.value)
  {
    var listing := Parse(s);
    match FilterChunks(listing.chunks, first, v, decode)
    case Err(e) => Err(e)
    case Ok(o) =>
      if !listing.complete then Err(Invalid) else
      HeaderStaysFirst(listing.chunks, first, v, decode);
      Finish(Outcome(done + o.chunks, o.seen))
  }

  /** The file holding these chunks, its size field truncated to 32 bits. */
  function File(body: bytes): bytes {
    PutBE32(RIFF) + PutLE32((|body| + 4) % 0x1_0000_0000) + PutBE32(WEBP) + body
  }

  /** A file whose size field is exact. */
  predicate IsWebP(data: bytes) {
    && |data| >= 12
    && U32(Big, data, 0) == RIFF && U32(Big, data, 8) == WEBP
    && U32(Little, data, 4) + 8 == |data|
  }

  function Filter(data: bytes, decode: Decoder): Result<bytes> {
    if !IsWebP(data) then Err(Invalid) else
    match FilterRest([], data[12..], true, NOTHING, decode)
    case Err(e) => Err(e)
    case Ok(es) => Ok(File(Serialize(es)))
  }

  // ----- The one-pass filter -----

  lemma {:induction false} SerializeConcat(cs: seq<Chunk>, ds: seq<Chunk>)
    requires AllValid(cs) && AllValid(ds)
    ensures Serialize(cs + ds) == Serialize(cs) + Serialize(ds)
  {
    hide Encode;
    if cs == [] {
      assert cs + ds == ds;
    } else {
      SerializeConcat(cs[1..], ds);
      assert (cs + ds)[1..] == cs[1..] + ds;
    }
  }

  lemma SerializeOne(c: Chunk)
    requires ValidChunk(c)
    ensures Serialize([c]) == Encode(c)
  {
    assert [c][1..] == [];
  }

  /** One turn of the loop. */
  lemma RestStep(done: seq<Chunk>, s: bytes, first: bool, v: Seen, decode: Decoder)
    requires AllValid(done)
    requires if first then done == [] && v.canvas.None? else HeaderFirst(done, v)
    requires ParseChunk(s).Some?
    ensures var c := ParseChunk(s).value;
            match FilterChunk(c, first, v, decode)
            case Err(e) => FilterRest(done, s, first, v, decode) == Err(e)
            case Ok(o) =>
              && AllValid(done + o.chunks) && HeaderFirst(done + o.chunks, o.seen)
              && FilterRest(done, s, first, v, decode) ==
                 FilterRest(done + o.chunks, s[ChunkSize(c)..], false, o.seen, decode)
  {
    hide FilterChunk, ParseChunk, Finish;
    var c := ParseChunk(s).value;
    var rest := Parse(s[ChunkSize(c)..]).chunks;
    assert Parse(s).chunks == [c] + rest;
    assert ([c] + rest)[1..] == rest;
    if FilterChunk(c, first, v, decode).Ok? {
      var o := FilterChunk(c, first, v, decode).value;
      CanvasSetByHeader(c, first, v, decode);
      assert first ==> done + o.chunks == o.chunks;
      if FilterChunks(rest, false, o.seen, decode).Ok? {
        assert done + (o.chunks + FilterChunks(rest, false, o.seen, decode).value.chunks)
            == done + o.chunks + FilterChunks(rest, false, o.seen, decode).value.chunks;
      }
    }
  }

  /** A chunk that does not fit is reported only when the chunks before it were accepted. */
  lemma RestStops(done: seq<Chunk>, s: bytes, first: bool, v: Seen, decode: Decoder)
    requires AllValid(done)
    requires if first then done == [] && v.canvas.None? else HeaderFirst(done, v)
    ensures s != [] && ParseChunk(s).None? ==> FilterRest(done, s, first, v, decode) == Err(Invalid)
    ensures s == [] ==> HeaderFirst(done, v) && FilterRest(done, s, first, v, decode) == Finish(Outcome(done, v))
  {
    assert done + [] == done;
  }

  method StripWebP(data: bytes, decode: Decoder) returns (r: Result<bytes>)
    ensures r == Filter(data, decode)
  {
    hide FilterRest, FilterChunk, Serialize, Encode, ParseChunk, Finish, File, Filter, U32;
    Start(data, decode);
    if |data| < 12 || U32(Big, data, 0) != RIFF || U32(Big, data, 8) != WEBP || U32(Little, data, 4) + 8 != |data| {
      return Err(Invalid);
    }
    var out := data[..12];
    var vp8x := -1;
    var v := NOTHING;
    var p := 12;
    ghost var done: seq<Chunk> := [];
    EmptyBody(out);
    while p < |data|
      invariant 12 <= p <= |data| && AllValid(done) && out == data[..12] + Serialize(done)
      invariant vp8x == if v.canvas.Some? then 20 else -1
      invariant if p == 12 then done == [] && v.canvas.None? else HeaderFirst(done, v)
      invariant FilterRest([], data[12..], true, NOTHING, decode) == FilterRest(done, data[p..], p == 12, v, decode)
    {
      ghost var s := data[p..];
      RestStops(done, s, p == 12, v, decode);
      var chunk := ReadChunk(data, p);
      if chunk.None? {
        return Err(Invalid);
      }
      var c := chunk.value;
      RestStep(done, s, p == 12, v, decode);
      var step := StripChunk(c, data[p..p + ChunkSize(c)], p == 12, |out|, vp8x, v, decode);
      if step.Err? {
        return Err(step.error);
      }
      SerializeConcat(done, FilterChunk(c, p == 12, v, decode).value.chunks);
      done := done + FilterChunk(c, p == 12, v, decode).value.chunks;
      out := out + step.value.emitted;
      vp8x := step.value.vp8x;
      v := step.value.seen;
      assert s[ChunkSize(c)..] == data[p + ChunkSize(c)..];
      p := p + ChunkSize(c);
    }
    RestStops(done, data[p..], p == 12, v, decode);
    HeaderReads(data, out);
    r := FinishOutput(out, vp8x, v, done);
  }

  /** The checks after the last chunk, the patched flag and the patched size. */
  method FinishOutput(written: bytes, vp8x: int, v: Seen, ghost done: seq<Chunk>) returns (r: Result<bytes>)
    requires AllValid(done) && HeaderFirst(done, v)
    requires |written| >= 12 && written[12..] == Serialize(done)
    requires U32(Big, written, 0) == RIFF && U32(Big, written, 8) == WEBP
    requires vp8x == if v.canvas.Some? then 20 else -1
    ensures match Finish(Outcome(done, v))
            case Err(e) => r == Err(e)
            case Ok(es) => r == Ok(File(Serialize(es)))
  {
    hide Serialize, File, MarkHeader, SetExif;
    var out := written;
    if v.frame.None? || (vp8x >= 0 && v.canvas != v.frame) {
      return Err(Invalid);
    }
    if v.hasExif {
      if vp8x < 0 {
        return Err(Invalid);
      }
      PatchHeader(out, done);
      out := out[vp8x := SetExif(out[vp8x])];
    }
    PatchSize(out);
    out := out[..4] + PutLE32((|out| - 8) % 0x1_0000_0000) + out[8..];
    return Ok(out);
  }

  lemma HeaderReads(data: bytes, out: bytes)
    requires |data| >= 12 && data[..12] <= out
    ensures U32(Big, out, 0) == U32(Big, data, 0) && U32(Big, out, 8) == U32(Big, data, 8)
  {
    assert forall i | 0 <= i < 12 :: out[i] == data[..12][i];
  }

  lemma Start(data: bytes, decode: Decoder)
    ensures !IsWebP(data) ==> Filter(data, decode) == Err(Invalid)
    ensures IsWebP(data) ==>
              Filter(data, decode) ==
              match FilterRest([], data[12..], true, NOTHING, decode)
              case Err(e) => Err(e)
              case Ok(es) => Ok(File(Serialize(es)))
  {
  }

  method ReadChunk(data: bytes, p: nat) returns (r: Option<Chunk>)
    requires p <= |data|
    ensures r == ParseChunk(data[p..])
    ensures r.Some? ==> data[p..p + ChunkSize(r.value)] == Encode(r.value)
  {
    hide Encode;
    ghost var s := data[p..];
    if |data| - p < 8 {
      return None;
    }
    var n := U32(Little, data, p + 4);
    ShiftedRead(Little, data, p, 4);
    ShiftedRead(Big, data, p, 0);
    if n > |data| - p - 8 {
      return None;
    }
    var end := p + 8 + n + n % 2;
    if end > |data| {
      return None;
    }
    assert s[8..8 + n] == data[p + 8..p + 8 + n] && s[8 + n..8 + n + n % 2] == data[p + 8 + n..end];
    r := Some(Chunk(U32(Big, data, p), data[p + 8..p + 8 + n], data[p + 8 + n..end]));
    EncodeParseChunk(s);
    assert data[p..end] == s[..end - p] == Encode(r.value);
  }

  /** What one chunk does: the bytes written, the index of the VP8X flags, what has been met. */
  datatype Step = Step(emitted: bytes, vp8x: int, seen: Seen)

  ghost predicate Performs(r: Result<Step>, c: Chunk, first: bool, v: Seen, decode: Decoder)
    requires ValidChunk(c)
  {
    match FilterChunk(c, first, v, decode)
    case Err(e) => r == Err(e)
    case Ok(o) => r == Ok(Step(Serialize(o.chunks), if o.seen.canvas.Some? then 20 else -1, o.seen))
  }

  /** The switch on the kind of one chunk; `written` is the length of the output so far. */
  method StripChunk(c: Chunk, raw: bytes, first: bool, written: nat, vp8x: int, v: Seen, decode: Decoder)
    returns (r: Result<Step>)
    requires ValidChunk(c) && raw == Encode(c) && (first ==> written == 12)
    requires vp8x == if v.canvas.Some? then 20 else -1
    ensures Performs(r, c, first, v, decode)
  {
    hide Encode, Serialize;
    var kind := c.kind;
    SerializeOne(c);
    SerializeNone();
    if kind == VP8X {
      r := StripHeader(c, raw, first, written, vp8x, v, decode);
    } else if kind == VP8 || kind == VP8L {
      r := StripFrame(c, raw, first, vp8x, v, decode);
    } else if kind == ALPH || kind == ICCP {
      return Ok(Step(raw, vp8x, v));
    } else if kind == EXIF {
      r := StripExif(c, first, vp8x, v, decode);
    } else if kind == ANIM || kind == ANMF {
      return Err(Invalid);
    } else {
      return Ok(Step([], vp8x, v));
    }
  }

  method StripHeader(c: Chunk, raw: bytes, first: bool, written: nat, vp8x: int, v: Seen, ghost decode: Decoder)
    returns (r: Result<Step>)
    requires ValidChunk(c) && raw == Encode(c) && (first ==> written == 12) && c.kind == VP8X
    requires vp8x == if v.canvas.Some? then 20 else -1
    ensures Performs(r, c, first, v, decode)
  {
    hide Encode, Serialize, Canvas, ClearFlags, TooLarge;
    if |c.payload| != 10 || vp8x != -1 || !first || !ValidHeader(c.payload) {
      return Err(Invalid);
    }
    var canvas := Canvas(c.payload);
    if TooLarge(canvas) {
      return Err(Limit);
    }
    EncodeUpdate(c, ClearFlags(raw[8]));
    SerializeOne(ClearHeader(c));
    return Ok(Step(raw[8 := ClearFlags(raw[8])], written + 8, v.(canvas := Some(canvas))));
  }

  lemma FrameCase(c: Chunk, first: bool, v: Seen, decode: Decoder)
    requires ValidChunk(c) && IsFrame(c.kind)
    ensures FilterChunk(c, first, v, decode) ==
            if v.frame.Some? || decode(FrameFile(c)).None? then Err(Invalid)
            else if TooLarge(decode(FrameFile(c)).value) then Err(Limit)
            else Ok(Outcome([c], v.(frame := decode(FrameFile(c)))))
  {
  }

  /** Reading only the frame stops a small canvas from hiding a large one. */
  method StripFrame(c: Chunk, raw: bytes, ghost first: bool, vp8x: int, v: Seen, decode: Decoder)
    returns (r: Result<Step>)
    requires ValidChunk(c) && raw == Encode(c) && IsFrame(c.kind)
    requires vp8x == if v.canvas.Some? then 20 else -1
    ensures Performs(r, c, first, v, decode)
  {
    hide Encode, Serialize, TooLarge, FilterChunk;
    FrameCase(c, first, v, decode);
    SerializeOne(c);
    if v.frame.Some? {
      return Err(Invalid);
    }
    var frame := PutBE32(RIFF) + PutLE32((|raw| + 4) % 0x1_0000_0000) + PutBE32(WEBP) + raw;
    assert frame == FrameFile(c);
    var size := decode(frame);
    if size.None? {
      return Err(Invalid);
    }
    if TooLarge(size.value) {
      return Err(Limit);
    }
    return Ok(Step(raw, vp8x, v.(frame := size)));
  }

  method StripExif(c: Chunk, ghost first: bool, vp8x: int, v: Seen, ghost decode: Decoder)
    returns (r: Result<Step>)
    requires ValidChunk(c) && c.kind == EXIF
    requires vp8x == if v.canvas.Some? then 20 else -1
    ensures Performs(r, c, first, v, decode)
  {
    hide Encode, Serialize, OrientationOf;
    SerializeNone();
    if v.seenExif {
      return Err(Invalid);
    }
    var o := ReadOrientation(c.payload);
    if o.Err? {
      return Err(o.error);
    }
    OrientationRange(c.payload);
    if o.value != 0 {
      SerializeOne(CleanExif(o.value));
      return Ok(Step(Encode(CleanExif(o.value)), vp8x, v.(seenExif := true, hasExif := true)));
    }
    return Ok(Step([], vp8x, v.(seenExif := true)));
  }

  lemma EncodeUpdate(c: Chunk, b: byte)
    requires ValidChunk(c) && |c.payload| > 0
    ensures Encode(c)[8] == c.payload[0]
    ensures Encode(c)[8 := b] == Encode(c.(payload := c.payload[0 := b]))
  {
  }

  lemma SerializeNone()
    ensures Serialize([]) == []
  {
  }

  lemma EmptyBody(header: bytes)
    ensures header == header + Serialize([])
  {
  }

  /** Setting the flag in the bytes is setting it in the first chunk. */
  lemma PatchHeader(out: bytes, cs: seq<Chunk>)
    requires |out| >= 12 && AllValid(cs) && cs != [] && |cs[0].payload| > 0 && out[12..] == Serialize(cs)
    requires U32(Big, out, 0) == RIFF && U32(Big, out, 8) == WEBP
    ensures AllValid(cs[0 := MarkHeader(cs[0])])
    ensures |out| > 20
    ensures var patched := out[20 := SetExif(out[20])];
            && patched[12..] == Serialize(cs[0 := MarkHeader(cs[0])])
            && U32(Big, patched, 0) == RIFF && U32(Big, patched, 8) == WEBP
  {
    hide Encode, SetExif;
    var c := cs[0];
    var ds := cs[0 := MarkHeader(c)];
    assert ds[1..] == cs[1..];
    assert out[20] == out[12..][8] == Encode(c)[8] == c.payload[0] by {
      EncodeUpdate(c, SetExif(c.payload[0]));
    }
    EncodeUpdate(c, SetExif(out[20]));
    assert out[20 := SetExif(out[20])][12..] == out[12..][8 := SetExif(out[20])];
    assert (Encode(c) + Serialize(cs[1..]))[8 := SetExif(out[20])] ==
      Encode(c)[8 := SetExif(out[20])] + Serialize(cs[1..]);
  }

  lemma PatchSize(out: bytes)
    requires |out| >= 12 && U32(Big, out, 0) == RIFF && U32(Big, out, 8) == WEBP
    ensures out[..4] + PutLE32((|out| - 8) % 0x1_0000_0000) + out[8..] == File(out[12..])
  {
    BE32Unique(out[0..4]);
    BE32Unique(out[8..12]);
    assert U32(Big, out, 0) == U32(Big, out[0..4], 0) && U32(Big, out, 8) == U32(Big, out[8..12], 0);
    assert out[..4] == out[0..4] && out[8..] == out[8..12] + out[12..];
  }

  // ----- What the filter keeps -----

  predicate NoExif(cs: seq<Chunk>) {
    forall i | 0 <= i < |cs| :: cs[i].kind != EXIF
  }

  predicate AtMostOneExif(cs: seq<Chunk>) {
    forall i, j | 0 <= i < j < |cs| :: !(cs[i].kind == EXIF && cs[j].kind == EXIF)
  }

  /** The frame, alpha and profile chunks, padding included, in order. */
  function Kept(cs: seq<Chunk>): seq<Chunk> {
    if cs == [] then [] else (if Copied(cs[0].kind) then [cs[0]] else []) + Kept(cs[1..])
  }

  function Frames(cs: seq<Chunk>): seq<Chunk> {
    if cs == [] then [] else (if IsFrame(cs[0].kind) then [cs[0]] else []) + Frames(cs[1..])
  }

  /** The orientation declared by the first EXIF chunk, 0 without one. */
  function OrientationIn(cs: seq<Chunk>): Result<nat> {
    if cs == [] then Ok(0)
    else if cs[0].kind == EXIF then OrientationOf(cs[0].payload)
    else OrientationIn(cs[1..])
  }

  /** Apart from the header in front, every chunk written is copied or the rewritten orientation. */
  predicate Clean(c: Chunk) {
    Copied(c.kind) || exists o | 1 <= o <= 8 :: c == CleanExif(o)
  }

  /** Everything the final checks look at. */
  predicate SameCore(v: Seen, w: Seen) {
    v.canvas == w.canvas && v.frame == w.frame && v.hasExif == w.hasExif
  }

  lemma FilterParts(cs: seq<Chunk>, first: bool, v: Seen, decode: Decoder)
    requires cs != [] && AllValid(cs) && FilterChunks(cs, first, v, decode).Ok?
    ensures FilterChunk(cs[0], first, v, decode).Ok?
    ensures var head := FilterChunk(cs[0], first, v, decode).value;
            && FilterChunks(cs[1..], false, head.seen, decode).Ok?
            && var tail := FilterChunks(cs[1..], false, head.seen, decode).value;
            && FilterChunks(cs, first, v, decode).value == Outcome(head.chunks + tail.chunks, tail.seen)
  {
  }

  /** A byte as its high half, the EXIF and XMP bits and the two low bits. */
  lemma FlagParts(flags: byte, high: nat, exif: nat, xmp: nat, low: nat)
    requires flags == 16 * high + 8 * exif + 4 * xmp + low && exif < 2 && xmp < 2 && low < 4
    ensures flags / 16 == high && flags / 8 % 2 == exif && flags / 4 % 2 == xmp && flags % 4 == low
    ensures flags / 64 == high / 4
  {
    assert flags / 8 == 2 * high + exif;
    assert flags / 4 == 2 * (2 * high + exif) + xmp;
  }

  lemma FlagBits(flags: byte)
    ensures var c, m := ClearFlags(flags), SetExif(flags);
            && ClearFlags(c) == c == ClearFlags(m)
            && c / 8 % 2 == 0 && c / 4 % 2 == 0
            && m / 8 % 2 == 1 && m / 4 % 2 == flags / 4 % 2
            && c / 64 == m / 64 == flags / 64
            && c % 4 == m % 4 == flags % 4
  {
    var high, exif, xmp, low := flags / 16, flags / 8 % 2, flags / 4 % 2, flags % 4;
    assert flags == 16 * high + 8 * exif + 4 * xmp + low by {
      assert flags / 4 == 2 * (flags / 8) + xmp && flags / 8 == 2 * (flags / 16) + exif;
    }
    FlagParts(flags, high, exif, xmp, low);
    FlagParts(ClearFlags(flags), high, 0, 0, low);
    FlagParts(SetExif(flags), high, 1, xmp, low);
  }

  /** What one chunk becomes is a fixed point of the filter, and so is its marked form. */
  lemma FilterChunkTwice(c: Chunk, first: bool, v: Seen, decode: Decoder)
    requires ValidChunk(c) && FilterChunk(c, first, v, decode).Ok?
             && FilterChunk(c, first, v, decode).value.chunks != []
    ensures var o := FilterChunk(c, first, v, decode).value;
            var h := o.chunks[0];
            && ValidChunk(h) && h.kind == c.kind && (h.kind == VP8X || Clean(h))
            && FilterChunk(h, first, v, decode) == Ok(Outcome([h], o.seen))
            && (h.kind == VP8X ==> |h.payload| > 0 && ValidChunk(MarkHeader(h))
                                   && FilterChunk(MarkHeader(h), first, v, decode) == Ok(Outcome([h], o.seen)))
  {
    hide OrientationOf, TooLarge, FrameFile, ClearFlags, SetExif;
    if c.kind == VP8X {
      FlagBits(c.payload[0]);
      FlagBits(ClearFlags(c.payload[0]));
      var h := ClearHeader(c);
      assert ClearHeader(h) == h;
      assert ClearHeader(MarkHeader(h)) == h;
    } else if c.kind == EXIF {
      OrientationRange(c.payload);
      OrientationRoundTrip(OrientationOf(c.payload).value);
    }
  }

  /** How one chunk moves the record of EXIF chunks. */
  lemma ExifRecord(c: Chunk, first: bool, v: Seen, decode: Decoder)
    requires ValidChunk(c) && FilterChunk(c, first, v, decode).Ok?
    ensures var o := FilterChunk(c, first, v, decode).value;
            && o.seen.seenExif == (v.seenExif || c.kind == EXIF)
            && (c.kind == EXIF ==> !v.seenExif && SameCore(v.(hasExif := o.seen.hasExif), o.seen))
            && o.seen.hasExif == (v.hasExif || (c.kind == EXIF && o.chunks != []))
  {
  }

  lemma {:induction false} FilteredIsClean(cs: seq<Chunk>, first: bool, v: Seen, decode: Decoder)
    requires AllValid(cs) && FilterChunks(cs, first, v, decode).Ok?
    ensures var o := FilterChunks(cs, first, v, decode).value;
            && (forall i | 0 <= i < |o.chunks| :: Clean(o.chunks[i]) || (first && i == 0 && o.chunks[i].kind == VP8X))
            && AtMostOneExif(o.chunks)
            && (v.seenExif ==> NoExif(o.chunks))
            && (o.seen.hasExif <==> v.hasExif || !NoExif(o.chunks))
  {
    hide FilterChunk, Clean;
    if cs != [] {
      FilterParts(cs, first, v, decode);
      var head := FilterChunk(cs[0], first, v, decode).value;
      FilteredIsClean(cs[1..], false, head.seen, decode);
      ExifRecord(cs[0], first, v, decode);
      CanvasSetByHeader(cs[0], first, v, decode);
      var tail := FilterChunks(cs[1..], false, head.seen, decode).value.chunks;
      if head.chunks != [] {
        FilterChunkTwice(cs[0], first, v, decode);
        var all := head.chunks + tail;
        assert all[0] == head.chunks[0] && all[1..] == tail;
        assert all[0].kind == EXIF ==> !NoExif(all);
        assert !NoExif(tail) ==> !NoExif(all) by {
          if k :| 0 <= k < |tail| && tail[k].kind == EXIF {
            assert all[k + 1].kind == EXIF;
          }
        }
      } else {
        assert head.chunks + tail == tail;
      }
    }
  }

  /** Without EXIF chunks it does not matter whether one came before. */
  lemma {:induction false} SeenIsIrrelevant(cs: seq<Chunk>, first: bool, v: Seen, b: bool, decode: Decoder)
    requires AllValid(cs) && NoExif(cs) && FilterChunks(cs, first, v, decode).Ok?
    ensures FilterChunks(cs, first, v.(seenExif := b), decode).Ok?
    ensures var o := FilterChunks(cs, first, v, decode).value;
            var u := FilterChunks(cs, first, v.(seenExif := b), decode).value;
            u.chunks == o.chunks && SameCore(u.seen, o.seen)
  {
    hide TooLarge, FrameFile;
    if cs != [] {
      FilterParts(cs, first, v, decode);
      var head := FilterChunk(cs[0], first, v, decode).value;
      assert FilterChunk(cs[0], first, v.(seenExif := b), decode) ==
        Ok(Outcome(head.chunks, head.seen.(seenExif := b)));
      SeenIsIrrelevant(cs[1..], false, head.seen, b, decode);
    }
  }

  /** Being in front matters only to a VP8X chunk. */
  lemma FirstIsIrrelevant(cs: seq<Chunk>, v: Seen, decode: Decoder)
    requires AllValid(cs) && FilterChunks(cs, false, v, decode).Ok?
    ensures FilterChunks(cs, true, v, decode) == FilterChunks(cs, false, v, decode)
  {
    hide TooLarge, FrameFile;
    if cs != [] {
      FilterParts(cs, false, v, decode);
      assert FilterChunk(cs[0], true, v, decode) == FilterChunk(cs[0], false, v, decode);
    }
  }

  lemma FilterChunksCons(c: Chunk, cs: seq<Chunk>, first: bool, v: Seen, decode: Decoder)
    requires ValidChunk(c) && AllValid(cs) && FilterChunk(c, first, v, decode).Ok?
    requires FilterChunks(cs, false, FilterChunk(c, first, v, decode).value.seen, decode).Ok?
    ensures AllValid([c] + cs)
    ensures var head := FilterChunk(c, first, v, decode).value;
            var tail := FilterChunks(cs, false, head.seen, decode).value;
            FilterChunks([c] + cs, first, v, decode) == Ok(Outcome(head.chunks + tail.chunks, tail.seen))
  {
    assert ([c] + cs)[1..] == cs;
  }

  /** A second pass over the chunks changes nothing the final checks look at. */
  lemma {:induction false} FilterChunksTwice(cs: seq<Chunk>, first: bool, v: Seen, decode: Decoder)
    requires AllValid(cs) && FilterChunks(cs, first, v, decode).Ok?
    ensures var o := FilterChunks(cs, first, v, decode).value;
            && FilterChunks(o.chunks, first, v, decode).Ok?
            && var u := FilterChunks(o.chunks, first, v, decode).value;
            && u.chunks == o.chunks && SameCore(u.seen, o.seen)
  {
    hide FilterChunk;
    if cs != [] {
      FilterParts(cs, first, v, decode);
      var head := FilterChunk(cs[0], first, v, decode).value;
      var tail := FilterChunks(cs[1..], false, head.seen, decode).value;
      FilterChunksTwice(cs[1..], false, head.seen, decode);
      if head.chunks == [] {
        assert head.chunks + tail.chunks == tail.chunks;
        DroppedChunk(cs[0], first, v, decode);
        if cs[0].kind == EXIF {
          FilteredIsClean(cs[1..], false, head.seen, decode);
          SeenIsIrrelevant(tail.chunks, false, head.seen, v.seenExif, decode);
        }
        FirstIsIrrelevant(tail.chunks, v, decode);
      } else {
        FilterChunkTwice(cs[0], first, v, decode);
        assert head.chunks == [head.chunks[0]];
        FilterChunksCons(head.chunks[0], tail.chunks, first, v, decode);
      }
    }
  }

  lemma DroppedChunk(c: Chunk, first: bool, v: Seen, decode: Decoder)
    requires ValidChunk(c) && FilterChunk(c, first, v, decode).Ok?
             && FilterChunk(c, first, v, decode).value.chunks == []
    ensures FilterChunk(c, first, v, decode).value.seen == if c.kind == EXIF then v.(seenExif := true) else v
  {
  }

  /** What one chunk contributes survives in what it becomes. */
  lemma FilterHeadKeeps(c: Chunk, first: bool, v: Seen, decode: Decoder, tail: seq<Chunk>)
    requires ValidChunk(c) && FilterChunk(c, first, v, decode).Ok?
    ensures var o := FilterChunk(c, first, v, decode).value;
            && Kept(o.chunks + tail) == (if Copied(c.kind) then [c] else []) + Kept(tail)
            && OrientationIn(o.chunks + tail) ==
               (if o.chunks == [] || c.kind != EXIF then OrientationIn(tail) else OrientationOf(c.payload))
            && (c.kind == EXIF && o.chunks == [] ==> OrientationOf(c.payload) == Ok(0))
            && (IsFrame(c.kind) <==> v.frame.None? && o.seen.frame.Some?)
            && (IsFrame(c.kind) ==> o.seen.frame == decode(FrameFile(c)))
            && (!IsFrame(c.kind) ==> o.seen.frame == v.frame)
  {
    hide TooLarge, FrameFile;
    var chunks := FilterChunk(c, first, v, decode).value.chunks;
    if chunks == [] {
      assert chunks + tail == tail;
    } else {
      assert (chunks + tail)[1..] == tail && (chunks + tail)[0] == chunks[0];
      if c.kind == EXIF {
        OrientationRange(c.payload);
        OrientationRoundTrip(OrientationOf(c.payload).value);
      }
    }
  }

  /** Copied chunks, the orientation and the one frame survive. */
  lemma {:induction false} FilterKeeps(cs: seq<Chunk>, first: bool, v: Seen, decode: Decoder)
    requires AllValid(cs) && FilterChunks(cs, first, v, decode).Ok?
    ensures var o := FilterChunks(cs, first, v, decode).value;
            && Kept(o.chunks) == Kept(cs)
            && OrientationIn(o.chunks) == (if v.seenExif then Ok(0) else OrientationIn(cs))
            && |Frames(cs)| == (if v.frame.None? && o.seen.frame.Some? then 1 else 0)
            && (v.frame.None? && o.seen.frame.Some? ==>
                ValidChunk(Frames(cs)[0]) && o.seen.frame == decode(FrameFile(Frames(cs)[0])))
            && (v.frame.Some? ==> o.seen.frame == v.frame)
  {
    hide FilterChunk, OrientationOf, IsFrame, Copied, FrameFile;
    if cs != [] {
      FilterParts(cs, first, v, decode);
      var head := FilterChunk(cs[0], first, v, decode).value;
      FilterKeeps(cs[1..], false, head.seen, decode);
      FilterHeadKeeps(cs[0], first, v, decode, FilterChunks(cs[1..], false, head.seen, decode).value.chunks);
      ExifRecord(cs[0], first, v, decode);
    }
  }

  lemma FilterChunkShrinks(c: Chunk, first: bool, v: Seen, decode: Decoder)
    requires ValidChunk(c) && FilterChunk(c, first, v, decode).Ok?
    ensures |Serialize(FilterChunk(c, first, v, decode).value.chunks)| <= ChunkSize(c)
  {
    hide Encode, TooLarge, FrameFile;
    var chunks := FilterChunk(c, first, v, decode).value.chunks;
    if chunks != [] {
      SerializeOne(chunks[0]);
      assert chunks == [chunks[0]];
      if c.kind == EXIF {
        OrientationNeeds26(c.payload);
      }
    }
  }

  /** Rewriting never makes the data longer. */
  lemma {:induction false} FilterShrinks(cs: seq<Chunk>, first: bool, v: Seen, decode: Decoder)
    requires AllValid(cs) && FilterChunks(cs, first, v, decode).Ok?
    ensures |Serialize(FilterChunks(cs, first, v, decode).value.chunks)| <= |Serialize(cs)|
  {
    hide Encode, FilterChunk;
    if cs != [] {
      FilterParts(cs, first, v, decode);
      var head := FilterChunk(cs[0], first, v, decode).value;
      FilterShrinks(cs[1..], false, head.seen, decode);
      FilterChunkShrinks(cs[0], first, v, decode);
      SerializeConcat(head.chunks, FilterChunks(cs[1..], false, head.seen, decode).value.chunks);
    }
  }

  // ----- The results, on bytes -----

  /** Marking the header in front changes no other chunk and no length. */
  lemma MarkKeeps(ds: seq<Chunk>, es: seq<Chunk>)
    requires AllValid(ds) && ds != [] && ds[0].kind == VP8X && |ds[0].payload| > 0
    requires es == ds[0 := MarkHeader(ds[0])]
    ensures AllValid(es) && |Serialize(es)| == |Serialize(ds)|
    ensures Kept(es) == Kept(ds) && OrientationIn(es) == OrientationIn(ds)
    ensures forall i | 0 <= i < |es| :: es[i].kind == ds[i].kind && (i > 0 ==> es[i] == ds[i])
  {
    hide Encode;
    assert es[1..] == ds[1..];
  }

  /** An accepted header is the first chunk, written with clear flag bits. */
  lemma HeaderKept(cs: seq<Chunk>, decode: Decoder)
    requires AllValid(cs) && FilterChunks(cs, true, NOTHING, decode).Ok?
    ensures var o := FilterChunks(cs, true, NOTHING, decode).value;
            && (o.seen.canvas.Some? <==> cs != [] && cs[0].kind == VP8X)
            && (o.seen.canvas.Some? ==>
                  && ValidHeader(cs[0].payload) && o.seen.canvas == Some(Canvas(cs[0].payload))
                  && o.chunks != [] && o.chunks[0] == ClearHeader(cs[0]))
  {
    hide TooLarge, FrameFile, Canvas, ClearFlags;
    if cs != [] {
      FilterParts(cs, true, NOTHING, decode);
      HeaderStaysFirst(cs[1..], false, FilterChunk(cs[0], true, NOTHING, decode).value.seen, decode);
    }
  }

  lemma FilterUnfolds(data: bytes, decode: Decoder) returns (cs: seq<Chunk>, o: Outcome, es: seq<Chunk>)
    requires Filter(data, decode).Ok?
    ensures IsWebP(data) && Parse(data[12..]) == Listing(cs, true) && AllValid(cs)
    ensures FilterChunks(cs, true, NOTHING, decode) == Ok(o) && HeaderFirst(o.chunks, o.seen)
    ensures Finish(o) == Ok(es) && AllValid(es) && Filter(data, decode) == Ok(File(Serialize(es)))
    ensures |Serialize(es)| <= |data| - 12 && |Serialize(es)| + 4 < 0x1_0000_0000
  {
    hide Serialize, Parse, FilterChunks, Finish, U32, MarkHeader;
    cs := Parse(data[12..]).chunks;
    o := FilterChunks(cs, true, NOTHING, decode).value;
    HeaderStaysFirst(cs, true, NOTHING, decode);
    assert [] + o.chunks == o.chunks && Outcome(o.chunks, o.seen) == o;
    es := Finish(o).value;
    FinishKeepsSize(o);
    FilterShrinks(cs, true, NOTHING, decode);
    SerializeParse(data[12..]);
    SizeFieldBound(data);
  }

  lemma FinishKeepsSize(o: Outcome)
    requires AllValid(o.chunks) && HeaderFirst(o.chunks, o.seen) && Finish(o).Ok?
    ensures |Serialize(Finish(o).value)| == |Serialize(o.chunks)|
  {
    hide Serialize;
    var es := Finish(o).value;
    if es != o.chunks {
      MarkKeeps(o.chunks, es);
    }
  }

  lemma SizeFieldBound(data: bytes)
    requires IsWebP(data)
    ensures |data| - 8 < 0x1_0000_0000
  {
  }

  lemma FileReads(body: bytes)
    requires |body| + 4 < 0x1_0000_0000
    ensures IsWebP(File(body)) && File(body)[12..] == body
  {
    hide U32, PutBE32, PutLE32;
    var f := File(body);
    SlicedRead(Big, f, 0);
    SlicedRead(Little, f, 4);
    SlicedRead(Big, f, 8);
    assert f[0..4] == PutBE32(RIFF) && f[4..8] == PutLE32(|body| + 4) && f[8..12] == PutBE32(WEBP);
  }

  /** The VP8X flags tell exactly whether an EXIF chunk is present, never XMP; the rest is kept. */
  ghost predicate HeaderAgrees(cs: seq<Chunk>, es: seq<Chunk>, decode: Decoder)
    requires AllValid(cs)
  {
    if cs != [] && cs[0].kind == VP8X then
      && es != [] && es[0].kind == VP8X && |cs[0].payload| == |es[0].payload| == 10
      && (HasExifFlag(es[0]) <==> !NoExif(es)) && !HasXmpFlag(es[0])
      && ClearFlags(es[0].payload[0]) == ClearFlags(cs[0].payload[0])
      && es[0].payload[1..] == cs[0].payload[1..]
      && (forall f <- Frames(cs) :: ValidChunk(f) && decode(FrameFile(f)) == Some(Canvas(cs[0].payload)))
    else NoExif(es)
  }

  /**
   * The filtered file has an exact size field and parses again. Its frame, alpha and profile
   * chunks are those of the input, byte for byte and in order; its orientation reads as before;
   * nothing else is left; and its header describes it.
   */
  lemma FilterPreserves(data: bytes, decode: Decoder)
    requires Filter(data, decode).Ok?
    ensures var out := Filter(data, decode).value;
            && IsWebP(data) && IsWebP(out) && Parse(data[12..]).complete && Parse(out[12..]).complete
            && var cs, es := Parse(data[12..]).chunks, Parse(out[12..]).chunks;
            && Kept(es) == Kept(cs) && |Frames(cs)| == 1
            && OrientationIn(es) == OrientationIn(cs)
            && (forall i | 0 <= i < |es| :: Clean(es[i]) || (i == 0 && es[i].kind == VP8X))
            && AtMostOneExif(es)
            && HeaderAgrees(cs, es, decode)
  {
    hide FilterChunks, Filter, Encode, Canvas, ClearFlags, SetExif, FrameFile, Serialize;
    var cs, o, es := FilterUnfolds(data, decode);
    FileReads(Serialize(es));
    ParseSerialize(es);
    FilterKeeps(cs, true, NOTHING, decode);
    FilteredIsClean(cs, true, NOTHING, decode);
    HeaderKept(cs, decode);
    if o.seen.canvas.Some? {
      FlagBits(cs[0].payload[0]);
      FlagBits(ClearFlags(cs[0].payload[0]));
      MarkKeeps(o.chunks, o.chunks[0 := MarkHeader(o.chunks[0])]);
      assert Frames(cs) == [Frames(cs)[0]];
    }
  }

  lemma FilterIdempotent(data: bytes, decode: Decoder)
    requires Filter(data, decode).Ok?
    ensures Filter(Filter(data, decode).value, decode) == Filter(data, decode)
  {
    hide FilterChunk, Encode;
    var cs, o, es := FilterUnfolds(data, decode);
    FileReads(Serialize(es));
    ParseSerialize(es);
    FilterChunksTwice(cs, true, NOTHING, decode);
    var u := FilterChunks(o.chunks, true, NOTHING, decode).value;
    MarkedTwice(cs, o, es, decode);
    assert FilterChunks(es, true, NOTHING, decode) == Ok(u);
    HeaderStaysFirst(es, true, NOTHING, decode);
    assert [] + u.chunks == o.chunks;
    assert FilterRest([], Serialize(es), true, NOTHING, decode) == Finish(Outcome([] + u.chunks, u.seen));
  }

  /** The final mark does not change what the chunks filter to. */
  lemma MarkedTwice(cs: seq<Chunk>, o: Outcome, es: seq<Chunk>, decode: Decoder)
    requires AllValid(cs) && FilterChunks(cs, true, NOTHING, decode) == Ok(o) && HeaderFirst(o.chunks, o.seen)
    requires AllValid(o.chunks) && Finish(o) == Ok(es)
    ensures AllValid(es) && FilterChunks(es, true, NOTHING, decode) == FilterChunks(o.chunks, true, NOTHING, decode)
  {
    hide FilterChunk, MarkHeader;
    if es != o.chunks {
      HeaderKept(cs, decode);
      FilterParts(cs, true, NOTHING, decode);
      CanvasSetByHeader(cs[0], true, NOTHING, decode);
      FilterChunkTwice(cs[0], true, NOTHING, decode);
      assert es[1..] == o.chunks[1..];
    }
  }

  lemma FilterNeverGrows(data: bytes, decode: Decoder)
    requires Filter(data, decode).Ok?
    ensures |Filter(data, decode).value| <= |data|
  {
    var cs, o, es := FilterUnfolds(data, decode);
  }

  // ----- What the filter accepts -----

  /** The chunk can be accepted where it is; `first` says that nothing is in front of it. */
  predicate Acceptable(c: Chunk, first: bool, decode: Decoder)
    requires ValidChunk(c)
  {
    if c.kind == VP8X then first && ValidHeader(c.payload) && !TooLarge(Canvas(c.payload))
    else if IsFrame(c.kind) then decode(FrameFile(c)).Some? && !TooLarge(decode(FrameFile(c)).value)
    else if c.kind == EXIF then OrientationOf(c.payload).Ok?
    else c.kind != ANIM && c.kind != ANMF
  }

  /** One chunk is refused by itself, or as a second frame or a second EXIF chunk. */
  lemma FilterChunkAccepts(c: Chunk, first: bool, v: Seen, decode: Decoder)
    requires ValidChunk(c) && (first ==> v.canvas.None?)
    ensures FilterChunk(c, first, v, decode).Ok? <==>
            && Acceptable(c, first, decode) && (IsFrame(c.kind) ==> v.frame.None?) && (c.kind == EXIF ==> !v.seenExif)
    ensures FilterChunk(c, first, v, decode).Ok? ==>
              var w := FilterChunk(c, first, v, decode).value.seen;
              && (w.frame.Some? <==> v.frame.Some? || IsFrame(c.kind))
              && (w.seenExif <==> v.seenExif || c.kind == EXIF)
              && (w.hasExif <==> v.hasExif || (c.kind == EXIF && OrientationOf(c.payload) != Ok(0)))
  {
    hide TooLarge, FrameFile, Canvas;
  }

  /** Each chunk is acceptable where it is; `first` says that nothing is in front of them. */
  predicate AllAcceptable(cs: seq<Chunk>, first: bool, decode: Decoder)
    requires AllValid(cs)
  {
    forall i | 0 <= i < |cs| :: Acceptable(cs[i], first && i == 0, decode)
  }

  /** A run over the chunks succeeds exactly when each is acceptable and neither frame nor EXIF comes twice. */
  lemma {:induction false} FilterChunksAccepts(cs: seq<Chunk>, first: bool, v: Seen, decode: Decoder)
    requires AllValid(cs) && (first ==> v.canvas.None?)
    ensures FilterChunks(cs, first, v, decode).Ok? <==>
            && AllAcceptable(cs, first, decode)
            && |Frames(cs)| <= (if v.frame.None? then 1 else 0)
            && (v.seenExif ==> NoExif(cs)) && AtMostOneExif(cs)
    ensures FilterChunks(cs, first, v, decode).Ok? ==>
              var w := FilterChunks(cs, first, v, decode).value.seen;
              && (w.hasExif <==> v.hasExif || OrientationIn(cs) != Ok(0))
              && (v.seenExif ==> OrientationIn(cs) == Ok(0))
  {
    hide FilterChunk, OrientationOf, Acceptable, AllAcceptable, AtMostOneExif, NoExif;
    if cs != [] {
      FilterChunkAccepts(cs[0], first, v, decode);
      AtMostOneMore(cs[0], cs[1..]);
      assert cs == [cs[0]] + cs[1..];
      HeadAndTail(cs, first, decode);
      if FilterChunk(cs[0], first, v, decode).Ok? {
        FilterChunksAccepts(cs[1..], false, FilterChunk(cs[0], first, v, decode).value.seen, decode);
      }
      OrientationOfTail(cs);
    } else {
      NothingToAccept(first, decode);
    }
  }

  lemma NothingToAccept(first: bool, decode: Decoder)
    ensures AllAcceptable([], first, decode) && NoExif([]) && AtMostOneExif([])
  {
  }

  /** Each chunk is acceptable, and none is EXIF, exactly if that holds of the first and of the rest. */
  lemma HeadAndTail(cs: seq<Chunk>, first: bool, decode: Decoder)
    requires cs != [] && AllValid(cs)
    ensures AllAcceptable(cs, first, decode) <==>
              Acceptable(cs[0], first, decode) && AllAcceptable(cs[1..], false, decode)
    ensures NoExif(cs) <==> cs[0].kind != EXIF && NoExif(cs[1..])
  {
    hide Acceptable;
    assert forall i | 0 < i < |cs| :: cs[i] == cs[1..][i - 1];
  }

  /** Without EXIF chunks there is no orientation. */
  lemma {:induction false} NoOrientation(cs: seq<Chunk>)
    requires NoExif(cs)
    ensures OrientationIn(cs) == Ok(0)
  {
    if cs != [] {
      NoOrientation(cs[1..]);
    }
  }

  lemma OrientationOfTail(cs: seq<Chunk>)
    requires cs != []
    ensures OrientationIn(cs) == if cs[0].kind == EXIF then OrientationOf(cs[0].payload) else OrientationIn(cs[1..])
    ensures NoExif(cs[1..]) ==> OrientationIn(cs[1..]) == Ok(0)
  {
    if NoExif(cs[1..]) {
      NoOrientation(cs[1..]);
    }
  }

  /**
   * A file is accepted exactly when its size field is exact, its chunks fill it, each is acceptable,
   * exactly one is a frame and at most one is EXIF, the canvas, if declared, is the size of the frame,
   * and an orientation other than 0 comes with an extended header.
   */
  lemma FilterAccepts(data: bytes, decode: Decoder)
    ensures Filter(data, decode).Ok? <==>
            && IsWebP(data) && Parse(data[12..]).complete
            && var cs := Parse(data[12..]).chunks;
            && AllAcceptable(cs, true, decode)
            && |Frames(cs)| == 1 && AtMostOneExif(cs)
            && (cs[0].kind == VP8X ==>
                ValidChunk(Frames(cs)[0]) && decode(FrameFile(Frames(cs)[0])) == Some(Canvas(cs[0].payload)))
            && (OrientationIn(cs) != Ok(0) ==> cs[0].kind == VP8X)
  {
    hide FilterChunks, AllAcceptable, Acceptable, Canvas, FrameFile, OrientationOf, Serialize;
    if IsWebP(data) && Parse(data[12..]).complete {
      var cs := Parse(data[12..]).chunks;
      FilterChunksAccepts(cs, true, NOTHING, decode);
      if FilterChunks(cs, true, NOTHING, decode).Ok? {
        var o := FilterChunks(cs, true, NOTHING, decode).value;
        HeaderKept(cs, decode);
        HeaderStaysFirst(cs, true, NOTHING, decode);
        FilterKeeps(cs, true, NOTHING, decode);
        assert [] + o.chunks == o.chunks && Outcome(o.chunks, o.seen) == o;
      }
    }
  }

  // ----- Which refusals are for size -----

  /** The chunk names a canvas or holds a frame over the pixel limit, and nothing else is wrong with it. */
  predicate Oversize(c: Chunk, first: bool, decode: Decoder)
    requires ValidChunk(c)
  {
    if c.kind == VP8X then first && ValidHeader(c.payload) && TooLarge(Canvas(c.payload))
    else IsFrame(c.kind) && decode(FrameFile(c)).Some? && TooLarge(decode(FrameFile(c)).value)
  }

  /** Chunk k is oversize, no second frame, and nothing in front of it is refused. */
  predicate Outgrows(cs: seq<Chunk>, k: nat, first: bool, v: Seen, decode: Decoder)
    requires AllValid(cs) && k < |cs|
  {
    && Oversize(cs[k], first && k == 0, decode)
    && (forall i | 0 <= i < k :: Acceptable(cs[i], first && i == 0, decode))
    && |Frames(cs[..k + 1])| <= (if v.frame.None? then 1 else 0)
    && (forall i | 0 <= i < k && cs[i].kind == EXIF :: !v.seenExif) && AtMostOneExif(cs[..k])
  }

  lemma FilterChunkLimits(c: Chunk, first: bool, v: Seen, decode: Decoder)
    requires ValidChunk(c) && (first ==> v.canvas.None?)
    ensures FilterChunk(c, first, v, decode) == Err(Limit) <==>
            Oversize(c, first, decode) && (IsFrame(c.kind) ==> v.frame.None?)
  {
    hide TooLarge, FrameFile, Canvas, OrientationOf;
    if c.kind == EXIF && OrientationOf(c.payload).Err? {
      OrientationError(c.payload);
    }
  }

  lemma OneFrame(cs: seq<Chunk>)
    requires cs != []
    ensures |Frames(cs[..1])| == if IsFrame(cs[0].kind) then 1 else 0
  {
    assert cs[..1][1..] == [];
  }

  lemma OutgrowsFirst(cs: seq<Chunk>, first: bool, v: Seen, decode: Decoder)
    requires cs != [] && AllValid(cs)
    ensures Outgrows(cs, 0, first, v, decode) <==>
            Oversize(cs[0], first, decode) && (IsFrame(cs[0].kind) ==> v.frame.None?)
  {
    hide Oversize, IsFrame;
    OneFrame(cs);
  }

  lemma OutgrowsLater(cs: seq<Chunk>, k: nat, first: bool, v: Seen, decode: Decoder)
    requires 0 < k < |cs| && AllValid(cs) && (first ==> v.canvas.None?)
    ensures Outgrows(cs, k, first, v, decode) <==>
            && FilterChunk(cs[0], first, v, decode).Ok?
            && Outgrows(cs[1..], k - 1, false, FilterChunk(cs[0], first, v, decode).value.seen, decode)
  {
    hide FilterChunk, Oversize, Acceptable, IsFrame;
    FilterChunkAccepts(cs[0], first, v, decode);
    assert cs[..k + 1][1..] == cs[1..][..k] && cs[..k + 1][0] == cs[0];
    assert cs[..k] == [cs[0]] + cs[1..][..k - 1];
    AtMostOneMore(cs[0], cs[1..][..k - 1]);
    forall i | 0 < i < k ensures cs[i] == cs[1..][i - 1] {
    }
  }

  lemma AtMostOneMore(c: Chunk, cs: seq<Chunk>)
    ensures AtMostOneExif([c] + cs) <==> AtMostOneExif(cs) && (c.kind == EXIF ==> NoExif(cs))
  {
    var all := [c] + cs;
    if AtMostOneExif(all) {
      forall i, j | 0 <= i < j < |cs| ensures !(cs[i].kind == EXIF && cs[j].kind == EXIF) {
        assert all[i + 1] == cs[i] && all[j + 1] == cs[j];
      }
      forall i | 0 <= i < |cs| && c.kind == EXIF ensures cs[i].kind != EXIF {
        assert all[i + 1] == cs[i] && all[0] == c;
      }
    }
  }

  /**
   * A run over the chunks is refused for size exactly when some chunk outgrows the limit before anything else is wrong.
   */
  lemma {:induction false} FilterChunksLimits(cs: seq<Chunk>, first: bool, v: Seen, decode: Decoder)
    requires AllValid(cs) && (first ==> v.canvas.None?)
    ensures FilterChunks(cs, first, v, decode) == Err(Limit) <==>
            exists k | 0 <= k < |cs| :: Outgrows(cs, k, first, v, decode)
  {
    hide FilterChunk, Outgrows, Oversize, Acceptable;
    if cs != [] {
      FilterChunkLimits(cs[0], first, v, decode);
      OutgrowsFirst(cs, first, v, decode);
      forall k | 0 < k < |cs| ensures Outgrows(cs, k, first, v, decode) <==>
            && FilterChunk(cs[0], first, v, decode).Ok?
            && Outgrows(cs[1..], k - 1, false, FilterChunk(cs[0], first, v, decode).value.seen, decode) {
        OutgrowsLater(cs, k, first, v, decode);
      }
      if FilterChunk(cs[0], first, v, decode).Ok? {
        var w := FilterChunk(cs[0], first, v, decode).value.seen;
        FilterChunksLimits(cs[1..], false, w, decode);
        if k :| 0 <= k < |cs[1..]| && Outgrows(cs[1..], k, false, w, decode) {
          assert Outgrows(cs, k + 1, first, v, decode);
        }
      }
    }
  }

  /**
   * A file is refused for size exactly when its size field is exact and a chunk of it outgrows the limit; every other
   * refusal is for its form.
   */
  lemma FilterLimits(data: bytes, decode: Decoder)
    ensures Filter(data, decode) == Err(Limit) <==>
            IsWebP(data) && exists k | 0 <= k < |Parse(data[12..]).chunks| ::
              Outgrows(Parse(data[12..]).chunks, k, true, NOTHING, decode)
  {
    hide FilterChunks, FilterRest, Outgrows, Serialize, Parse, U32, File;
    if IsWebP(data) {
      FilterChunksLimits(Parse(data[12..]).chunks, true, NOTHING, decode);
      RestLimits(data[12..], decode);
    }
  }

  /** What is wrong at the end is never the size. */
  lemma RestLimits(s: bytes, decode: Decoder)
    ensures FilterRest([], s, true, NOTHING, decode) == Err(Limit) <==>
            FilterChunks(Parse(s).chunks, true, NOTHING, decode) == Err(Limit)
  {
    hide FilterChunks, Parse, MarkHeader;
    if FilterChunks(Parse(s).chunks, true, NOTHING, decode).Ok? {
      HeaderStaysFirst(Parse(s).chunks, true, NOTHING, decode);
    }
  }
}
