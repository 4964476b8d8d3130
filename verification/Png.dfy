/** The PNG container filter: chunk layout of sections 3.2 and 3.3 of RFC 2083. */
module Png {
  import opened Bytes
  import opened Tiff

  /** The checksum is a parameter: every result below holds for every function of the bytes. */
  type Checksum = bytes -> Word

  const IHDR: Word := 0x4948_4452 // "IHDR"
  const PLTE: Word := 0x504C_5445 // "PLTE"
  const IDAT: Word := 0x4944_4154 // "IDAT"
  const IEND: Word := 0x4945_4E44 // "IEND"
  const TRNS: Word := 0x7452_4E53 // "tRNS"
  const CHRM: Word := 0x6348_524D // "cHRM"
  const GAMA: Word := 0x6741_4D41 // "gAMA"
  const ICCP: Word := 0x6943_4350 // "iCCP"
  const SRGB: Word := 0x7352_4742 // "sRGB"
  const SBIT: Word := 0x7342_4954 // "sBIT"
  const EXIF: Word := 0x6558_4966 // "eXIf"
  const ACTL: Word := 0x6163_544C // "acTL"
  const FCTL: Word := 0x6663_544C // "fcTL"
  const FDAT: Word := 0x6664_4154 // "fdAT"

  /** A chunk; its four-letter kind is read as one big-endian number. */
  datatype Chunk = Chunk(kind: Word, payload: bytes)

  /** The chunk types copied verbatim. */
  predicate Allowed(kind: Word) {
    || kind == IHDR || kind == PLTE || kind == IDAT || kind == IEND || kind == TRNS
    || kind == CHRM || kind == GAMA || kind == ICCP || kind == SRGB || kind == SBIT
  }

  predicate Animated(kind: Word) {
    kind == ACTL || kind == FCTL || kind == FDAT
  }

  /** Bit 5 of the first letter is clear: a chunk a reader must not ignore. */
  predicate Critical(kind: Word) {
    kind / 0x2000_0000 % 2 == 0
  }

  /** Length, kind, payload and checksum. */
  function Encode(c: Chunk, crc: Checksum): (b: bytes)
    requires ValidChunk(c)
    ensures |b| == 12 + |c.payload|
  {
    PutBE32(|c.payload|) + PutBE32(c.kind) + c.payload + PutBE32(crc(PutBE32(c.kind) + c.payload))
  }

  predicate ValidChunk(c: Chunk) {
    |c.payload| < 0x1_0000_0000
  }

  predicate AllValid(cs: seq<Chunk>) {
    forall i | 0 <= i < |cs| :: ValidChunk(cs[i])
  }

  /** A stream of chunks that ends with its only IEND. */
  predicate ValidChunks(cs: seq<Chunk>) {
    && cs != []
    && ValidChunk(cs[0])
    && (cs[0].kind == IEND <==> |cs| == 1)
    && (|cs| > 1 ==> ValidChunks(cs[1..]))
  }

  function Serialize(cs: seq<Chunk>, crc: Checksum): bytes
    requires AllValid(cs)
  {
    if cs == [] then [] else Encode(cs[0], crc) + Serialize(cs[1..], crc)
  }

  /** The chunk at the front of s, if its length fits and its checksum matches. */
  function ParseChunk(s: bytes, crc: Checksum): (r: Option<Chunk>)
    ensures r.Some? ==> ValidChunk(r.value) && |r.value.payload| + 12 <= |s|
  {
    if |s| < 12 then None else
    var n := U32(Big, s, 0);
    if n > |s| - 12 then None else
    if crc(s[4..8 + n]) != U32(Big, s, 8 + n) then None else
    Some(Chunk(U32(Big, s, 4), s[8..8 + n]))
  }

  /** The chunks of s up to an IEND that must be its last byte. */
  function Parse(s: bytes, crc: Checksum): (r: Option<seq<Chunk>>)
    ensures r.Some? ==> ValidChunks(r.value)
  {
    match ParseChunk(s, crc)
    case None => None
    case Some(c) =>
      var rest := s[|c.payload| + 12..];
      if c.kind == IEND then if rest == [] then Some([c]) else None
      else
        match Parse(rest, crc)
        case None => None
        case Some(cs) => Some([c] + cs)
  }

  lemma {:induction false} StreamIsValid(cs: seq<Chunk>)
    requires ValidChunks(cs)
    ensures AllValid(cs)
  {
    if |cs| > 1 {
      StreamIsValid(cs[1..]);
      assert cs == [cs[0]] + cs[1..];
    }
  }

  lemma ParseChunkEncode(c: Chunk, rest: bytes, crc: Checksum)
    requires ValidChunk(c)
    ensures ParseChunk(Encode(c, crc) + rest, crc) == Some(c)
    ensures (Encode(c, crc) + rest)[|c.payload| + 12..] == rest
  {
    hide PutBE32, U32;
    var n := |c.payload|;
    var s := Encode(c, crc) + rest;
    var covered := PutBE32(c.kind) + c.payload;
    WrittenWord(s, 0, n);
    WrittenWord(s, 4, c.kind);
    assert s[8..8 + n] == c.payload;
    assert s[4..8 + n] == covered;
    WrittenWord(s, 8 + n, crc(covered));
  }

  lemma WrittenWord(s: bytes, p: nat, n: Word)
    requires p + 4 <= |s| && s[p..p + 4] == PutBE32(n)
    ensures U32(Big, s, p) == n
  {
    hide PutBE32;
    assert U32(Big, s, p) == U32(Big, s[p..p + 4], 0);
  }

  lemma EncodeParseChunk(s: bytes, crc: Checksum)
    requires ParseChunk(s, crc).Some?
    ensures var c := ParseChunk(s, crc).value; s == Encode(c, crc) + s[|c.payload| + 12..]
  {
    hide PutBE32, U32;
    var c := ParseChunk(s, crc).value;
    var n := |c.payload|;
    WordAt(s, 0);
    WordAt(s, 4);
    WordAt(s, 8 + n);
    assert s[4..8 + n] == s[4..8] + s[8..8 + n];
    assert s == s[0..4] + s[4..8] + s[8..8 + n] + s[8 + n..8 + n + 4] + s[12 + n..];
  }

  lemma WordAt(s: bytes, p: nat)
    requires p + 4 <= |s|
    ensures s[p..p + 4] == PutBE32(U32(Big, s, p))
  {
    BE32Unique(s[p..p + 4]);
    assert U32(Big, s, p) == U32(Big, s[p..p + 4], 0);
  }

  /** Reading back a written stream gives the same chunks. */
  lemma {:induction false} ParseSerialize(cs: seq<Chunk>, crc: Checksum)
    requires ValidChunks(cs)
    ensures AllValid(cs)
    ensures Parse(Serialize(cs, crc), crc) == Some(cs)
  {
    StreamIsValid(cs);
    var rest := Serialize(cs[1..], crc);
    ParseChunkEncode(cs[0], rest, crc);
    if |cs| > 1 {
      ParseSerialize(cs[1..], crc);
      assert [cs[0]] + cs[1..] == cs;
    } else {
      assert cs == [cs[0]];
    }
  }

  /** An accepted stream is exactly what its chunks write. */
  lemma {:induction false} SerializeParse(s: bytes, crc: Checksum)
    requires Parse(s, crc).Some?
    ensures AllValid(Parse(s, crc).value)
    ensures Serialize(Parse(s, crc).value, crc) == s
    decreases |s|
  {
    var cs := Parse(s, crc).value;
    StreamIsValid(cs);
    EncodeParseChunk(s, crc);
    var c := ParseChunk(s, crc).value;
    var rest := s[|c.payload| + 12..];
    if c.kind == IEND {
      assert cs[1..] == [];
    } else {
      SerializeParse(rest, crc);
      assert cs[1..] == Parse(rest, crc).value;
    }
  }

  // ----- The filter, on chunks -----

  datatype Verdict = Reject | Emit(chunks: seq<Chunk>)

  /** The only eXIf chunk the filter ever writes. */
  function CleanExif(o: nat): Chunk
    requires o < 0x1_0000
  {
    Chunk(EXIF, OrientationExif(o))
  }

  /** What the filter writes for one chunk; `seen` says an eXIf came before. */
  function FilterChunk(c: Chunk, seen: bool): (v: Verdict)
    requires ValidChunk(c)
    ensures v.Emit? ==> |v.chunks| <= 1 && AllValid(v.chunks)
  {
    if Allowed(c.kind) then Emit([c])
    else if c.kind == EXIF then
      if seen then Reject else
      match OrientationOf(c.payload)
      case Err(_) => Reject
      case Ok(o) => OrientationRange(c.payload); if o != 0 then Emit([CleanExif(o)]) else Emit([])
    else if Animated(c.kind) || Critical(c.kind) then Reject
    else Emit([])
  }

  function FilterChunks(cs: seq<Chunk>, seen: bool): Option<seq<Chunk>>
    requires AllValid(cs)
  {
    if cs == [] then Some([]) else
    match FilterChunk(cs[0], seen)
    case Reject => None
    case Emit(head) =>
      match FilterChunks(cs[1..], seen || cs[0].kind == EXIF)
      case None => None
      case Some(tail) => Some(head + tail)
  }

  lemma {:induction false} FilterChunksValid(cs: seq<Chunk>, seen: bool)
    requires AllValid(cs)
    ensures FilterChunks(cs, seen).Some? ==> AllValid(FilterChunks(cs, seen).value)
  {
    if cs != [] {
      FilterChunksValid(cs[1..], seen || cs[0].kind == EXIF);
    }
  }

  /** Filtering a stream of chunks: parse, filter, write. */
  function FilterStream(s: bytes, seen: bool, crc: Checksum): Option<bytes> {
    match Parse(s, crc)
    case None => None
    case Some(cs) =>
      StreamIsValid(cs);
      FilterChunksValid(cs, seen);
      match FilterChunks(cs, seen)
      case None => None
      case Some(ds) => Some(Serialize(ds, crc))
  }

  function Filter(data: bytes, crc: Checksum): Result<bytes> {
    if |data| < 8 then Err(Invalid) else
    match FilterStream(data[8..], false, crc)
    case None => Err(Invalid)
    case Some(t) => Ok(data[..8] + t)
  }

  lemma FilterChunksCons(c: Chunk, cs: seq<Chunk>, seen: bool, crc: Checksum)
    requires ValidChunk(c) && AllValid(cs)
    ensures AllValid([c] + cs)
    ensures FilterChunks([c] + cs, seen) ==
            match FilterChunk(c, seen)
            case Reject => None
            case Emit(head) =>
              match FilterChunks(cs, seen || c.kind == EXIF)
              case None => None
              case Some(tail) => Some(head + tail)
  {
    assert ([c] + cs)[1..] == cs;
  }

  lemma SerializeHead(head: seq<Chunk>, tail: seq<Chunk>, crc: Checksum)
    requires |head| <= 1 && AllValid(head) && AllValid(tail)
    ensures Serialize(head + tail, crc) == Serialize(head, crc) + Serialize(tail, crc)
  {
    if head == [] {
      assert head + tail == tail;
    } else {
      assert (head + tail)[1..] == tail;
      assert Serialize(head[1..], crc) == [];
    }
  }

  /** The last chunk of a stream is copied and must be the end of the data. */
  lemma FilterStreamEnd(s: bytes, seen: bool, crc: Checksum)
    requires ParseChunk(s, crc).Some? && ParseChunk(s, crc).value.kind == IEND
    ensures var c := ParseChunk(s, crc).value;
            FilterStream(s, seen, crc) ==
            if |s| == |c.payload| + 12 then Some(Encode(c, crc)) else None
  {
    var c := ParseChunk(s, crc).value;
    var rest := s[|c.payload| + 12..];
    if rest == [] {
      assert Parse(s, crc) == Some([c]);
      FilterLast(c, seen, crc);
    } else {
      assert Parse(s, crc) == None;
    }
  }

  lemma FilterLast(c: Chunk, seen: bool, crc: Checksum)
    requires ValidChunk(c) && c.kind == IEND
    ensures FilterChunks([c], seen) == Some([c])
    ensures Serialize([c], crc) == Encode(c, crc)
  {
    FilterChunksCons(c, [], seen, crc);
    assert [c] + [] == [c];
    assert [c][1..] == [];
  }

  /** Any other chunk adds what FilterChunk emits in front of the rest. */
  lemma FilterStreamStep(s: bytes, seen: bool, crc: Checksum)
    requires ParseChunk(s, crc).Some? && ParseChunk(s, crc).value.kind != IEND
    ensures var c := ParseChunk(s, crc).value;
            FilterStream(s, seen, crc) ==
            match FilterChunk(c, seen)
            case Reject => None
            case Emit(head) =>
              match FilterStream(s[|c.payload| + 12..], seen || c.kind == EXIF, crc)
              case None => None
              case Some(t) => Some(Serialize(head, crc) + t)
  {
    hide FilterChunk, FilterChunks, Serialize, ParseChunk;
    var c := ParseChunk(s, crc).value;
    var rest := s[|c.payload| + 12..];
    if Parse(rest, crc).Some? {
      var cs := Parse(rest, crc).value;
      StreamIsValid(cs);
      FilterChunksCons(c, cs, seen, crc);
      FilterChunksValid(cs, seen || c.kind == EXIF);
      if FilterChunk(c, seen).Emit? && FilterChunks(cs, seen || c.kind == EXIF).Some? {
        SerializeHead(FilterChunk(c, seen).chunks, FilterChunks(cs, seen || c.kind == EXIF).value, crc);
      }
    }
  }

  // ----- The one-pass filter -----

  /** The outcome once `out` is written and s is still to be read. */
  function Resume(out: bytes, s: bytes, seen: bool, crc: Checksum): Result<bytes> {
    match FilterStream(s, seen, crc)
    case None => Err(Invalid)
    case Some(t) => Ok(out + t)
  }

  /** What one chunk puts on the output, or None when it makes the image invalid. */
  function Emitted(c: Chunk, seen: bool, crc: Checksum): Option<bytes>
    requires ValidChunk(c)
  {
    match FilterChunk(c, seen)
    case Reject => None
    case Emit(cs) => Some(Serialize(cs, crc))
  }

  method StripPng(data: bytes, crc: Checksum) returns (r: Result<bytes>)
    ensures r == Filter(data, crc)
  {
    hide FilterStream, FilterChunk, Serialize, Encode;
    if |data| < 8 {
      return Err(Invalid);
    }
    var out := data[..8];
    var seenOrientation := false;
    var p := 8;
    while p < |data|
      invariant 8 <= p <= |data|
      invariant Filter(data, crc) == Resume(out, data[p..], seenOrientation, crc)
    {
      NoChunk(out, data[p..], seenOrientation, crc);
      if |data| - p < 12 {
        return Err(Invalid);
      }
      var n := U32(Big, data, p);
      ShiftedRead(Big, data, p, 0);
      if n > |data| - p - 12 {
        return Err(Invalid);
      }
      var kind := U32(Big, data, p + 4);
      var chunk := data[p..p + n + 12];
      var payload := data[p + 8..p + 8 + n];
      assert data[p..][4..8 + n] == data[p + 4..p + 8 + n];
      ShiftedRead(Big, data, p, 8 + n);
      if crc(data[p + 4..p + 8 + n]) != U32(Big, data, p + 8 + n) {
        return Err(Invalid);
      }
      ParsedInPlace(data, p, n, crc);
      var emitted := StripChunk(kind, chunk, payload, seenOrientation, crc);
      Advance(out, data, p, n, seenOrientation, crc);
      if emitted.None? {
        return Err(Invalid);
      }
      out := out + emitted.value;
      p := p + n + 12;
      if kind == IEND {
        if p != |data| {
          return Err(Invalid);
        }
        return Ok(out);
      }
      seenOrientation := seenOrientation || kind == EXIF;
    }
    assert data[p..] == [];
    assert ParseChunk([], crc).None?;
    NoChunk(out, [], seenOrientation, crc);
    return Err(Invalid);
  }

  lemma NoChunk(out: bytes, s: bytes, seen: bool, crc: Checksum)
    ensures ParseChunk(s, crc).None? ==> Resume(out, s, seen, crc) == Err(Invalid)
  {
  }

  /** The switch on the kind of one chunk. */
  method StripChunk(kind: Word, chunk: bytes, payload: bytes, seenOrientation: bool, crc: Checksum)
    returns (emitted: Option<bytes>)
    requires |payload| < 0x1_0000_0000 && chunk == Encode(Chunk(kind, payload), crc)
    ensures emitted == Emitted(Chunk(kind, payload), seenOrientation, crc)
  {
    SerializeOne(Chunk(kind, payload), crc);
    if Allowed(kind) {
      return Some(chunk);
    } else if kind == EXIF {
      if seenOrientation {
        return None;
      }
      var o := ReadOrientation(payload);
      if o.Err? {
        return None;
      }
      OrientationRange(payload);
      if o.value != 0 {
        SerializeOne(CleanExif(o.value), crc);
        return Some(Encode(CleanExif(o.value), crc));
      }
    } else if Animated(kind) || Critical(kind) {
      return None;
    }
    return Some([]);
  }

  lemma SerializeOne(c: Chunk, crc: Checksum)
    requires ValidChunk(c)
    ensures Serialize([c], crc) == Encode(c, crc)
  {
    assert [c][1..] == [];
  }

  lemma EmittedLast(c: Chunk, seen: bool, crc: Checksum)
    requires ValidChunk(c) && c.kind == IEND
    ensures Emitted(c, seen, crc) == Some(Encode(c, crc))
  {
    SerializeOne(c, crc);
  }

  /** The bytes the loop copies are the chunk parsed at p. */
  lemma ParsedInPlace(data: bytes, p: nat, n: nat, crc: Checksum)
    requires p + n + 12 <= |data| && n == U32(Big, data, p)
    requires crc(data[p..][4..8 + n]) == U32(Big, data[p..], 8 + n)
    ensures var c := Chunk(U32(Big, data, p + 4), data[p + 8..p + 8 + n]);
            && ParseChunk(data[p..], crc) == Some(c)
            && data[p..p + n + 12] == Encode(c, crc)
  {
    var s := data[p..];
    assert s[8..8 + n] == data[p + 8..p + 8 + n];
    EncodeParseChunk(s, crc);
    assert data[p..p + n + 12] == s[..n + 12];
  }

  /** One turn of the loop moves the emitted bytes from the rest of the input to the output. */
  lemma Advance(out: bytes, data: bytes, p: nat, n: nat, seen: bool, crc: Checksum)
    requires p + n + 12 <= |data|
    requires ParseChunk(data[p..], crc).Some? && |ParseChunk(data[p..], crc).value.payload| == n
    ensures var c := ParseChunk(data[p..], crc).value;
            Resume(out, data[p..], seen, crc) ==
            match Emitted(c, seen, crc)
            case None => Err(Invalid)
            case Some(h) =>
              if c.kind == IEND then if p + n + 12 == |data| then Ok(out + h) else Err(Invalid)
              else Resume(out + h, data[p + n + 12..], seen || c.kind == EXIF, crc)
  {
    hide FilterStream, ParseChunk, FilterChunk, Serialize, Encode;
    var s := data[p..];
    var c := ParseChunk(s, crc).value;
    assert s[n + 12..] == data[p + n + 12..];
    if c.kind == IEND {
      FilterStreamEnd(s, seen, crc);
      EmittedLast(c, seen, crc);
    } else {
      FilterStreamStep(s, seen, crc);
      if Emitted(c, seen, crc).Some? && FilterStream(data[p + n + 12..], seen || c.kind == EXIF, crc).Some? {
        var h, t := Emitted(c, seen, crc).value, FilterStream(data[p + n + 12..], seen || c.kind == EXIF, crc).value;
        assert out + (h + t) == out + h + t;
      }
    }
  }

  // ----- What the filter keeps -----

  predicate NoExif(cs: seq<Chunk>) {
    forall i | 0 <= i < |cs| :: cs[i].kind != EXIF
  }

  predicate AtMostOneExif(cs: seq<Chunk>) {
    forall i, j | 0 <= i < j < |cs| :: !(cs[i].kind == EXIF && cs[j].kind == EXIF)
  }

  /** The chunks that are copied, in order. */
  function Kept(cs: seq<Chunk>): seq<Chunk> {
    if cs == [] then []
    else (if Allowed(cs[0].kind) then [cs[0]] else []) + Kept(cs[1..])
  }

  /** The orientation declared by the first eXIf chunk, 0 without one. */
  function OrientationIn(cs: seq<Chunk>): Result<nat> {
    if cs == [] then Ok(0)
    else if cs[0].kind == EXIF then OrientationOf(cs[0].payload)
    else OrientationIn(cs[1..])
  }

  /** Every chunk the filter writes is a copied one or the rewritten orientation. */
  predicate Clean(c: Chunk) {
    Allowed(c.kind) || exists o | 1 <= o <= 8 :: c == CleanExif(o)
  }

  /** The head of a filtered stream and what is left, as equations on FilterChunks. */
  lemma FilterParts(cs: seq<Chunk>, seen: bool)
    requires cs != [] && AllValid(cs) && FilterChunks(cs, seen).Some?
    ensures FilterChunk(cs[0], seen).Emit?
    ensures FilterChunks(cs[1..], seen || cs[0].kind == EXIF).Some?
    ensures FilterChunks(cs, seen).value ==
            FilterChunk(cs[0], seen).chunks + FilterChunks(cs[1..], seen || cs[0].kind == EXIF).value
  {
  }

  lemma {:induction false} FilteredIsClean(cs: seq<Chunk>, seen: bool)
    requires AllValid(cs) && FilterChunks(cs, seen).Some?
    ensures forall d <- FilterChunks(cs, seen).value :: Clean(d)
    ensures seen ==> NoExif(FilterChunks(cs, seen).value)
    ensures AtMostOneExif(FilterChunks(cs, seen).value)
  {
    if cs != [] {
      FilterParts(cs, seen);
      FilteredIsClean(cs[1..], seen || cs[0].kind == EXIF);
      if cs[0].kind == EXIF {
        OrientationRange(cs[0].payload);
      }
    }
  }

  lemma {:induction false} SeenIsIrrelevant(cs: seq<Chunk>, seen: bool)
    requires AllValid(cs) && NoExif(cs)
    ensures FilterChunks(cs, seen) == FilterChunks(cs, false)
  {
    if cs != [] {
      SeenIsIrrelevant(cs[1..], seen);
    }
  }

  /** A second pass over the chunks changes nothing. */
  lemma {:induction false} FilterChunksTwice(cs: seq<Chunk>, seen: bool)
    requires AllValid(cs) && FilterChunks(cs, seen).Some?
    ensures AllValid(FilterChunks(cs, seen).value)
    ensures FilterChunks(FilterChunks(cs, seen).value, seen) == Some(FilterChunks(cs, seen).value)
  {
    FilterChunksValid(cs, seen);
    if cs != [] {
      FilterParts(cs, seen);
      var c, seen' := cs[0], seen || cs[0].kind == EXIF;
      var head, tail := FilterChunk(c, seen).chunks, FilterChunks(cs[1..], seen').value;
      FilterChunksTwice(cs[1..], seen');
      if head == [] {
        assert head + tail == tail;
        if c.kind == EXIF {
          FilteredIsClean(cs[1..], true);
          SeenIsIrrelevant(tail, true);
        }
      } else {
        if c.kind == EXIF {
          OrientationRange(c.payload);
          OrientationRoundTrip(OrientationOf(c.payload).value);
        }
        assert FilterChunk(head[0], seen) == Emit(head);
        assert (head + tail)[1..] == tail;
      }
    }
  }

  /** The copied chunks survive in order, and so does the orientation. */
  lemma {:induction false} FilterKeeps(cs: seq<Chunk>, seen: bool)
    requires AllValid(cs) && FilterChunks(cs, seen).Some?
    ensures Kept(FilterChunks(cs, seen).value) == Kept(cs)
    ensures !seen ==> OrientationIn(FilterChunks(cs, seen).value) == OrientationIn(cs)
    ensures seen ==> OrientationIn(FilterChunks(cs, seen).value) == Ok(0)
  {
    if cs != [] {
      FilterParts(cs, seen);
      var c, seen' := cs[0], seen || cs[0].kind == EXIF;
      var head, tail := FilterChunk(c, seen).chunks, FilterChunks(cs[1..], seen').value;
      FilterKeeps(cs[1..], seen');
      if head == [] {
        assert head + tail == tail;
      } else {
        if c.kind == EXIF {
          OrientationRange(c.payload);
          OrientationRoundTrip(OrientationOf(c.payload).value);
        }
        assert (head + tail)[1..] == tail;
      }
    }
  }

  /** A filtered stream still ends with its only IEND. */
  lemma {:induction false} FilterKeepsTheEnd(cs: seq<Chunk>, seen: bool)
    requires ValidChunks(cs) && AllValid(cs) && FilterChunks(cs, seen).Some?
    ensures ValidChunks(FilterChunks(cs, seen).value)
  {
    FilterParts(cs, seen);
    var seen' := seen || cs[0].kind == EXIF;
    var head, tail := FilterChunk(cs[0], seen).chunks, FilterChunks(cs[1..], seen').value;
    if |cs| == 1 {
      assert tail == [];
    } else {
      FilterKeepsTheEnd(cs[1..], seen');
      if head == [] {
        assert head + tail == tail;
      } else {
        assert (head + tail)[1..] == tail;
      }
    }
  }

  /** Rewriting never makes a stream longer. */
  lemma {:induction false} FilterShrinks(cs: seq<Chunk>, seen: bool, crc: Checksum)
    requires AllValid(cs) && FilterChunks(cs, seen).Some?
    ensures AllValid(FilterChunks(cs, seen).value)
    ensures |Serialize(FilterChunks(cs, seen).value, crc)| <= |Serialize(cs, crc)|
  {
    hide Encode;
    FilterChunksValid(cs, seen);
    if cs != [] {
      FilterParts(cs, seen);
      var c, seen' := cs[0], seen || cs[0].kind == EXIF;
      var head, tail := FilterChunk(c, seen).chunks, FilterChunks(cs[1..], seen').value;
      FilterShrinks(cs[1..], seen', crc);
      SerializeHead(head, tail, crc);
      if head != [] {
        SerializeOne(head[0], crc);
        assert head == [head[0]];
        if c.kind == EXIF {
          OrientationNeeds26(c.payload);
        }
      }
    }
  }

  /** A chunk list is accepted exactly when nothing in it is forbidden. */
  lemma {:induction false} FilterAccepts(cs: seq<Chunk>, seen: bool)
    requires AllValid(cs)
    ensures FilterChunks(cs, seen).Some? <==>
            && (forall i | 0 <= i < |cs| ::
                Allowed(cs[i].kind) || cs[i].kind == EXIF || !(Animated(cs[i].kind) || Critical(cs[i].kind)))
            && (forall i | 0 <= i < |cs| && cs[i].kind == EXIF :: !seen && OrientationOf(cs[i].payload).Ok?)
            && AtMostOneExif(cs)
  {
    if cs != [] {
      FilterAccepts(cs[1..], seen || cs[0].kind == EXIF);
      assert cs == [cs[0]] + cs[1..];
    }
  }

  // ----- The results, on bytes -----

  /** The chunks of an accepted image and of its filtered form. */
  lemma FilterUnfolds(data: bytes, crc: Checksum) returns (cs: seq<Chunk>, ds: seq<Chunk>)
    requires Filter(data, crc).Ok?
    ensures ValidChunks(cs) && AllValid(cs) && Parse(data[8..], crc) == Some(cs)
    ensures AllValid(ds) && FilterChunks(cs, false) == Some(ds)
    ensures Filter(data, crc) == Ok(data[..8] + Serialize(ds, crc))
  {
    cs := Parse(data[8..], crc).value;
    StreamIsValid(cs);
    FilterChunksValid(cs, false);
    ds := FilterChunks(cs, false).value;
  }

  /**
   * The filtered image parses into a complete chunk stream: the copied chunks of the input in
   * order and unchanged, plus at most the rewritten orientation, which reads as it did before.
   */
  lemma FilterPreserves(data: bytes, crc: Checksum)
    requires Filter(data, crc).Ok?
    ensures var out := Filter(data, crc).value;
            && |out| >= 8 && out[..8] == data[..8]
            && Parse(data[8..], crc).Some? && Parse(out[8..], crc).Some?
            && var cs, ds := Parse(data[8..], crc).value, Parse(out[8..], crc).value;
            && Kept(ds) == Kept(cs)
            && OrientationIn(ds) == OrientationIn(cs)
            && (forall d <- ds :: Clean(d)) && AtMostOneExif(ds)
  {
    var cs, ds := FilterUnfolds(data, crc);
    var out := Filter(data, crc).value;
    assert out[8..] == Serialize(ds, crc);
    FilterKeeps(cs, false);
    FilteredIsClean(cs, false);
    FilterKeepsTheEnd(cs, false);
    ParseSerialize(ds, crc);
  }

  lemma FilterIdempotent(data: bytes, crc: Checksum)
    requires Filter(data, crc).Ok?
    ensures Filter(Filter(data, crc).value, crc) == Filter(data, crc)
  {
    var cs, ds := FilterUnfolds(data, crc);
    var out := Filter(data, crc).value;
    assert out[8..] == Serialize(ds, crc) && out[..8] == data[..8];
    FilterKeepsTheEnd(cs, false);
    ParseSerialize(ds, crc);
    FilterChunksTwice(cs, false);
  }

  lemma FilterNeverGrows(data: bytes, crc: Checksum)
    requires Filter(data, crc).Ok?
    ensures |Filter(data, crc).value| <= |data|
  {
    var cs, ds := FilterUnfolds(data, crc);
    FilterShrinks(cs, false, crc);
    SerializeParse(data[8..], crc);
  }
}
