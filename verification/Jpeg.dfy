/** The JPEG container filter: marker segments and entropy-coded scans of Annex B of ITU-T T.81. */
module Jpeg {
  import opened Bytes
  import opened Tiff

  const FILL: byte := 0xFF
  const SOI: byte := 216
  const EOI: byte := 217
  const SOS: byte := 218
  const APP0: byte := 224
  const APP1: byte := 225
  const APP2: byte := 226
  const APP14: byte := 238
  const APP15: byte := 239
  const COM: byte := 254

  const JFIF_ID: bytes := [0x4A, 0x46, 0x49, 0x46, 0]
  const ADOBE_ID: bytes := [0x41, 0x64, 0x6F, 0x62, 0x65]
  const ICC_ID: bytes := [0x49, 0x43, 0x43, 0x5F, 0x50, 0x52, 0x4F, 0x46, 0x49, 0x4C, 0x45, 0]

  predicate IsRestart(m: byte) {
    208 <= m <= 215
  }

  /** Markers that may head a segment. */
  predicate SegmentMarker(m: byte) {
    m != FILL && m != 0 && m != SOI && m != EOI && !IsRestart(m)
  }

  /** `fill` bytes 0xFF, the marker, a payload, and the entropy-coded data a scan header opens. */
  datatype Segment = Segment(fill: nat, marker: byte, payload: bytes, scan: bytes)

  // ----- Runs of 0xFF and entropy-coded data -----

  function Fill(n: nat): (b: bytes)
    ensures |b| == n && forall i | 0 <= i < n :: b[i] == FILL
  {
    seq(n, i => FILL)
  }

  /** How many leading bytes are 0xFF. */
  function FillLength(s: bytes): (n: nat)
    ensures n <= |s|
    ensures forall i | 0 <= i < n :: s[i] == FILL
    ensures n < |s| ==> s[n] != FILL
  {
    if s == [] || s[0] != FILL then 0 else 1 + FillLength(s[1..])
  }

  function Shift(r: Option<nat>, k: nat): Option<nat> {
    match r case None => None case Some(n) => Some(n + k)
  }

  /** Where the entropy-coded data at the front of s ends: before the next marker that is
      neither a stuffed zero nor a restart. None when s stops inside a run of 0xFF. */
  function ScanLength(s: bytes): (r: Option<nat>)
    ensures r.Some? ==> r.value <= |s|
  {
    if s == [] then Some(0)
    else if s[0] != FILL then
      Shift(ScanLength(s[1..]), 1)
    else
      var f := FillLength(s);
      if f == |s| then None
      else if s[f] == 0 || IsRestart(s[f]) then
        Shift(ScanLength(s[f + 1..]), f + 1)
      else Some(0)
  }

  /** Data that is entropy-coded to its last byte. */
  predicate IsScan(s: bytes) {
    ScanLength(s) == Some(|s|)
  }

  /** The front of s is a run of 0xFF ended by a marker that closes a scan. */
  predicate AtMarker(s: bytes) {
    var f := FillLength(s);
    0 < f < |s| && s[f] != 0 && !IsRestart(s[f])
  }

  // ----- Segments -----

  predicate ValidSegment(g: Segment) {
    && g.fill > 0
    && SegmentMarker(g.marker)
    && |g.payload| + 2 < 0x1_0000
    && (if g.marker == SOS then IsScan(g.scan) else g.scan == [])
  }

  predicate AllValid(gs: seq<Segment>) {
    forall i | 0 <= i < |gs| :: ValidSegment(gs[i])
  }

  function Encode(g: Segment): (b: bytes)
    requires |g.payload| + 2 < 0x1_0000
  {
    Fill(g.fill) + [g.marker] + PutBE16(|g.payload| + 2) + g.payload + g.scan
  }

  function Serialize(gs: seq<Segment>): bytes
    requires AllValid(gs)
  {
    if gs == [] then [] else Encode(gs[0]) + Serialize(gs[1..])
  }

  /** The end-of-image marker behind `fill` bytes 0xFF. */
  function End(fill: nat): bytes {
    Fill(fill) + [EOI]
  }

  /** What stands at the front of the data: a segment, the end of the image, or neither. */
  datatype Front = Bad | Last(fill: nat) | Head(segment: Segment)

  function SegmentSize(g: Segment): nat {
    g.fill + 3 + |g.payload| + |g.scan|
  }

  function ParseFront(s: bytes): (r: Front)
    ensures r.Head? ==> ValidSegment(r.segment) && SegmentSize(r.segment) <= |s|
    ensures r.Last? ==> 0 < r.fill < |s|
  {
    var f := FillLength(s);
    if f == 0 || f == |s| then Bad else
    var m := s[f];
    if m == EOI then Last(f) else
    if !SegmentMarker(m) || |s| - f < 3 then Bad else
    var n := U16(Big, s, f + 1);
    if n < 2 || n > |s| - f - 1 then Bad else
    var payload, rest := s[f + 3..f + 1 + n], s[f + 1 + n..];
    if m != SOS then Head(Segment(f, m, payload, [])) else
    match ScanLength(rest)
    case None => Bad
    case Some(k) => ScanIsScan(rest); Head(Segment(f, m, payload, rest[..k]))
  }

  /** The segments up to an end-of-image marker that must be the last byte, and its fill. */
  function Parse(s: bytes): (r: Option<(seq<Segment>, nat)>)
    ensures r.Some? ==> AllValid(r.value.0) && r.value.1 > 0
    decreases |s|
  {
    match ParseFront(s)
    case Bad => None
    case Last(f) => if |s| == f + 1 then Some(([], f)) else None
    case Head(g) =>
      match Parse(s[SegmentSize(g)..])
      case None => None
      case Some(p) => Some(([g] + p.0, p.1))
  }

  // ----- Round trips -----

  /** The run of 0xFF ends at the first other byte. */
  lemma FillLengthIs(s: bytes, n: nat)
    requires n < |s| && s[n] != FILL && forall i | 0 <= i < n :: s[i] == FILL
    ensures FillLength(s) == n
  {
  }

  /** The data a scan length measures is itself entropy-coded to its last byte. */
  lemma {:induction false} ScanIsScan(s: bytes)
    requires ScanLength(s).Some?
    ensures IsScan(s[..ScanLength(s).value])
  {
    var k := ScanLength(s).value;
    if s != [] && k > 0 {
      var t := s[..k];
      if s[0] != FILL {
        ScanIsScan(s[1..]);
        assert t[1..] == s[1..][..k - 1];
      } else {
        var f := FillLength(s);
        ScanIsScan(s[f + 1..]);
        assert t[f + 1..] == s[f + 1..][..k - f - 1];
        FillLengthIs(t, f);
      }
    }
  }

  /** Entropy-coded data in front of a marker is measured exactly. */
  lemma {:induction false} ScanThenMarker(scan: bytes, t: bytes)
    requires IsScan(scan) && AtMarker(t)
    ensures ScanLength(scan + t) == Some(|scan|)
  {
    var s := scan + t;
    if scan == [] {
      assert s == t;
    } else if scan[0] != FILL {
      assert s[1..] == scan[1..] + t;
      ScanThenMarker(scan[1..], t);
    } else {
      hide IsScan, AtMarker;
      var f := FillLength(scan);
      ScanBehindFill(scan);
      FillLengthIs(s, f);
      assert s[f + 1..] == scan[f + 1..] + t;
      ScanThenMarker(scan[f + 1..], t);
    }
  }

  /** Behind a run of 0xFF and the byte that ends it, a scan goes on. */
  lemma ScanBehindFill(scan: bytes)
    requires IsScan(scan) && scan != [] && scan[0] == FILL
    ensures var f := FillLength(scan);
            && 0 < f < |scan| && (forall i | 0 <= i < f :: scan[i] == FILL)
            && scan[f] != FILL && (scan[f] == 0 || IsRestart(scan[f])) && IsScan(scan[f + 1..])
  {
  }

  /** A segment starts with a marker that would close a scan, whatever follows. */
  lemma EncodeAtMarker(g: Segment, rest: bytes)
    requires ValidSegment(g)
    ensures AtMarker(Encode(g) + rest)
    ensures FillLength(Encode(g) + rest) == g.fill && (Encode(g) + rest)[g.fill] == g.marker
  {
    var s := Encode(g) + rest;
    assert s[g.fill] == g.marker;
    assert forall i | 0 <= i < g.fill :: s[i] == Fill(g.fill)[i];
    FillLengthIs(s, g.fill);
  }

  lemma EndAtMarker(fill: nat)
    requires fill > 0
    ensures AtMarker(End(fill)) && ParseFront(End(fill)) == Last(fill)
  {
    var s := End(fill);
    assert s[fill] == EOI;
    assert forall i | 0 <= i < fill :: s[i] == Fill(fill)[i];
    FillLengthIs(s, fill);
  }

  lemma ParseFrontEncode(g: Segment, rest: bytes)
    requires ValidSegment(g) && (g.marker == SOS ==> AtMarker(rest))
    ensures ParseFront(Encode(g) + rest) == Head(g)
    ensures (Encode(g) + rest)[SegmentSize(g)..] == rest
  {
    hide ScanLength, IsScan, FillLength;
    var s := Encode(g) + rest;
    var f, n := g.fill, |g.payload| + 2;
    EncodeAtMarker(g, rest);
    assert s[f + 1..f + 3] == PutBE16(n);
    assert U16(Big, s, f + 1) == U16(Big, s[f + 1..f + 3], 0) == n;
    assert s[f + 3..f + 1 + n] == g.payload;
    assert s[f + 1 + n..] == g.scan + rest;
    if g.marker == SOS {
      ScanThenMarker(g.scan, rest);
    }
  }

  lemma EncodeParseFront(s: bytes)
    requires ParseFront(s).Head?
    ensures var g := ParseFront(s).segment; s == Encode(g) + s[SegmentSize(g)..]
  {
    hide ParseFront, U16, Fill;
    FrontParts(s);
    var g := ParseFront(s).segment;
    var f, n := g.fill, |g.payload| + 2;
    LengthAt(s, f + 1);
    Reassemble(s, f, n);
    var tail := s[f + 1 + n..];
    assert tail == g.scan + s[SegmentSize(g)..];
  }

  /** Where the parts of a parsed segment stand. */
  lemma FrontParts(s: bytes)
    requires ParseFront(s).Head?
    ensures var g := ParseFront(s).segment;
            var f, n := g.fill, |g.payload| + 2;
            && f + 1 + n + |g.scan| <= |s| && n < 0x1_0000
            && s[..f] == Fill(f) && s[f] == g.marker && U16(Big, s, f + 1) == n
            && s[f + 3..f + 1 + n] == g.payload && s[f + 1 + n..][..|g.scan|] == g.scan
  {
    hide ScanLength, IsScan, U16, FillLength, ValidSegment;
    var g := ParseFront(s).segment;
    assert g.fill == FillLength(s) && s[..g.fill] == Fill(g.fill);
    assert |g.payload| + 2 == U16(Big, s, g.fill + 1);
  }

  lemma LengthAt(s: bytes, p: nat)
    requires p + 2 <= |s|
    ensures s[p..p + 2] == PutBE16(U16(Big, s, p))
  {
    BE16Unique(s[p..p + 2]);
    assert U16(Big, s, p) == U16(Big, s[p..p + 2], 0);
  }

  lemma Reassemble(s: bytes, f: nat, n: nat)
    requires 2 <= n && f + 1 + n <= |s|
    ensures s == s[..f] + [s[f]] + s[f + 1..f + 3] + s[f + 3..f + 1 + n] + s[f + 1 + n..]
  {
  }

  lemma {:induction false} SerializeAtMarker(gs: seq<Segment>, fill: nat)
    requires AllValid(gs) && fill > 0
    ensures AtMarker(Serialize(gs) + End(fill))
  {
    if gs == [] {
      EndAtMarker(fill);
      assert Serialize(gs) + End(fill) == End(fill);
    } else {
      EncodeAtMarker(gs[0], Serialize(gs[1..]) + End(fill));
      assert Serialize(gs) + End(fill) == Encode(gs[0]) + (Serialize(gs[1..]) + End(fill));
    }
  }

  /** Reading back written segments gives the same segments, scans included. */
  lemma {:induction false} ParseSerialize(gs: seq<Segment>, fill: nat)
    requires AllValid(gs) && fill > 0
    ensures Parse(Serialize(gs) + End(fill)) == Some((gs, fill))
  {
    hide Encode, ParseFront, AtMarker, FillLength, Fill, End, SegmentSize, Parse, IsScan;
    if gs == [] {
      EndAlone(fill);
      assert Serialize(gs) + End(fill) == End(fill);
    } else {
      var rest := Serialize(gs[1..]) + End(fill);
      SerializeAtMarker(gs[1..], fill);
      ParseFrontEncode(gs[0], rest);
      ParseSerialize(gs[1..], fill);
      assert Serialize(gs) + End(fill) == Encode(gs[0]) + rest;
      ParseHead(Encode(gs[0]) + rest, gs[0], gs[1..], fill);
      assert [gs[0]] + gs[1..] == gs;
    }
  }

  lemma EndAlone(fill: nat)
    requires fill > 0
    ensures Parse(End(fill)) == Some(([], fill))
  {
    hide ParseFront, AtMarker, FillLength;
    EndAtMarker(fill);
  }

  lemma ParseHead(s: bytes, g: Segment, gs: seq<Segment>, fill: nat)
    requires ParseFront(s) == Head(g) && Parse(s[SegmentSize(g)..]) == Some((gs, fill))
    ensures Parse(s) == Some(([g] + gs, fill))
  {
    hide ParseFront;
  }

  /** An accepted image is exactly what its segments write. */
  lemma {:induction false} SerializeParse(s: bytes)
    requires Parse(s).Some?
    ensures s == Serialize(Parse(s).value.0) + End(Parse(s).value.1)
    decreases |s|
  {
    hide Encode;
    match ParseFront(s) {
      case Last(f) =>
        assert s[..f] == Fill(f);
        assert s == s[..f] + [s[f]];
      case Head(g) =>
        EncodeParseFront(s);
        var rest := s[SegmentSize(g)..];
        SerializeParse(rest);
        var gs := Parse(s).value.0;
        assert gs[1..] == Parse(rest).value.0;
        assert s == Encode(g) + (Serialize(gs[1..]) + End(Parse(s).value.1));
    }
  }

  // ----- The filter, on segments -----

  predicate IsApp(m: byte) {
    APP0 <= m <= APP15
  }

  predicate IsJfif(g: Segment) {
    g.marker == APP0 && JFIF_ID <= g.payload
  }

  predicate IsExif(g: Segment) {
    g.marker == APP1 && EXIF_HEADER <= g.payload
  }

  predicate IsIcc(g: Segment) {
    g.marker == APP2 && ICC_ID <= g.payload
  }

  predicate IsAdobe(g: Segment) {
    g.marker == APP14 && ADOBE_ID <= g.payload && |g.payload| == 12
  }

  /** Segments that are copied verbatim. */
  predicate Copied(g: Segment) {
    (!IsApp(g.marker) && g.marker != COM) || IsIcc(g) || IsAdobe(g)
  }

  /** The fixed JFIF header without its thumbnail. */
  function CleanJfif(payload: bytes): Segment
    requires |payload| >= 14
  {
    Segment(1, APP0, payload[..12] + [0, 0], [])
  }

  /** The only EXIF segment the filter ever writes. */
  function CleanExif(o: nat): Segment
    requires o < 0x1_0000
  {
    Segment(1, APP1, EXIF_HEADER + OrientationExif(o), [])
  }

  datatype Verdict = Reject | Emit(segments: seq<Segment>)

  function FilterSegment(g: Segment, seen: bool): (v: Verdict)
    requires ValidSegment(g)
    ensures v.Emit? ==> |v.segments| <= 1 && AllValid(v.segments)
  {
    if IsJfif(g) then
      if |g.payload| < 14 then Reject else Emit([CleanJfif(g.payload)])
    else if IsExif(g) then
      if seen then Reject else
      match OrientationOf(g.payload)
      case Err(_) => Reject
      case Ok(o) => OrientationRange(g.payload); if o != 0 then Emit([CleanExif(o)]) else Emit([])
    else if Copied(g) then Emit([g])
    else Emit([])
  }

  function FilterSegments(gs: seq<Segment>, seen: bool): (r: Option<seq<Segment>>)
    requires AllValid(gs)
    ensures r.Some? ==> AllValid(r.value)
  {
    if gs == [] then Some([]) else
    match FilterSegment(gs[0], seen)
    case Reject => None
    case Emit(head) =>
      match FilterSegments(gs[1..], seen || IsExif(gs[0]))
      case None => None
      case Some(tail) => Some(head + tail)
  }

  /** Filtering everything after the start-of-image marker. */
  function FilterStream(s: bytes, seen: bool): Option<bytes> {
    match Parse(s)
    case None => None
    case Some(p) =>
      match FilterSegments(p.0, seen)
      case None => None
      case Some(hs) => Some(Serialize(hs) + End(1))
  }

  function Filter(data: bytes): Result<bytes> {
    if |data| < 4 || data[0] != 255 || data[1] != SOI then Err(Invalid) else
    match FilterStream(data[2..], false)
    case None => Err(Invalid)
    case Some(t) => Ok([255, SOI] + t)
  }

  lemma SerializeHead(head: seq<Segment>, tail: seq<Segment>)
    requires |head| <= 1 && AllValid(head) && AllValid(tail)
    ensures Serialize(head + tail) == Serialize(head) + Serialize(tail)
  {
    if head == [] {
      assert head + tail == tail;
    } else {
      assert (head + tail)[1..] == tail;
      assert Serialize(head[1..]) == [];
    }
  }

  lemma SerializeOne(g: Segment)
    requires ValidSegment(g)
    ensures Serialize([g]) == Encode(g)
  {
    assert [g][1..] == [];
  }

  lemma FilterSegmentsCons(g: Segment, gs: seq<Segment>, seen: bool)
    requires ValidSegment(g) && AllValid(gs)
    ensures AllValid([g] + gs)
    ensures FilterSegments([g] + gs, seen) ==
            match FilterSegment(g, seen)
            case Reject => None
            case Emit(head) =>
              match FilterSegments(gs, seen || IsExif(g))
              case None => None
              case Some(tail) => Some(head + tail)
  {
    assert ([g] + gs)[1..] == gs;
  }

  /** A segment in front is followed by the segments of the rest. */
  lemma ParseStep(s: bytes)
    requires ParseFront(s).Head?
    ensures var g := ParseFront(s).segment;
            match Parse(s[SegmentSize(g)..])
            case None => Parse(s) == None
            case Some(p) => Parse(s) == Some(([g] + p.0, p.1))
  {
    hide ParseFront;
  }

  /** A segment adds what FilterSegment emits in front of the rest. */
  lemma FilterStreamStep(s: bytes, seen: bool)
    requires ParseFront(s).Head?
    ensures var g := ParseFront(s).segment;
            FilterStream(s, seen) ==
            match FilterSegment(g, seen)
            case Reject => None
            case Emit(head) =>
              match FilterStream(s[SegmentSize(g)..], seen || IsExif(g))
              case None => None
              case Some(t) => Some(Serialize(head) + t)
  {
    hide FilterSegment, FilterSegments, Encode, End, ParseFront, Serialize, SegmentSize;
    var g := ParseFront(s).segment;
    var rest := s[SegmentSize(g)..];
    ParseStep(s);
    if Parse(rest).Some? {
      var gs := Parse(rest).value.0;
      FilterSegmentsCons(g, gs, seen);
      if FilterSegment(g, seen).Emit? && FilterSegments(gs, seen || IsExif(g)).Some? {
        var head, tail := FilterSegment(g, seen).segments, FilterSegments(gs, seen || IsExif(g)).value;
        SerializeHead(head, tail);
        assert Serialize(head) + Serialize(tail) + End(1) == Serialize(head) + (Serialize(tail) + End(1));
      }
    }
  }

  // ----- The one-pass filter -----

  /** The outcome once `out` is written and s is still to be read. */
  function Resume(out: bytes, s: bytes, seen: bool): Result<bytes> {
    match FilterStream(s, seen)
    case None => Err(Invalid)
    case Some(t) => Ok(out + t)
  }

  /** What one segment puts on the output, its scan included, or None when it is invalid. */
  function Emitted(g: Segment, seen: bool): Option<bytes>
    requires ValidSegment(g)
  {
    match FilterSegment(g, seen)
    case Reject => None
    case Emit(gs) => Some(Serialize(gs))
  }

  /** What the loop finds at `start`: the marker and its payload up to `end`, its scan up to `next`. */
  datatype Item = BadItem | EndItem(next: nat) | SegmentItem(marker: byte, payload: bytes, end: nat, next: nat)

  ghost predicate Describes(item: Item, data: bytes, start: nat)
    requires start <= |data|
  {
    var front := ParseFront(data[start..]);
    match item
    case BadItem => front == Bad
    case EndItem(next) => front.Last? && next == start + front.fill + 1
    case SegmentItem(marker, payload, end, next) =>
      && start < end <= next <= |data|
      && front.Head? && SegmentSize(front.segment) == next - start
      && front.segment.marker == marker && front.segment.payload == payload && front.segment.scan == data[end..next]
  }

  method StripJpeg(data: bytes) returns (r: Result<bytes>)
    ensures r == Filter(data)
  {
    hide Resume, Emitted, Filter, ParseFront;
    Start(data);
    if |data| < 4 || data[0] != 255 || data[1] != 216 {
      return Err(Invalid);
    }
    var out: bytes := [255, 216];
    var seenOrientation := false;
    var p := 2;
    while p < |data|
      invariant 2 <= p <= |data|
      invariant Filter(data) == Resume(out, data[p..], seenOrientation)
    {
      NoFront(out, data[p..], seenOrientation);
      var item := ReadItem(data, p);
      match item {
        case BadItem =>
          return Err(Invalid);
        case EndItem(next) =>
          out := out + [255, 217];
          AtEnd(out, data[p..], seenOrientation);
          if next != |data| {
            return Err(Invalid);
          }
          return Ok(out);
        case SegmentItem(marker, payload, end, next) =>
          ghost var g := ParseFront(data[p..]).segment;
          ParsedInPlace(data, p, next, g);
          var emitted := StripSegment(marker, payload, data[p..end], data[end..next], seenOrientation, g);
          Advance(out, data, p, next, seenOrientation);
          if emitted.None? {
            return Err(Invalid);
          }
          out := out + emitted.value;
          seenOrientation := seenOrientation || (marker == 225 && EXIF_HEADER <= payload);
          p := next;
      }
    }
    NoFront(out, data[p..], seenOrientation);
    return Err(Invalid);
  }

  method ReadItem(data: bytes, start: nat) returns (item: Item)
    requires start < |data|
    ensures Describes(item, data, start)
  {
    hide ParseFront, ScanLength;
    ghost var s := data[start..];
    var p := SkipFill(data, start);
    FrontMarker(s);
    if p == start || p >= |data| {
      return BadItem;
    }
    var marker := data[p];
    p := p + 1;
    if marker == 217 {
      return EndItem(p);
    }
    if marker == 0 || marker == 216 || (marker >= 208 && marker <= 215) {
      return BadItem;
    }
    if |data| - p < 2 {
      return BadItem;
    }
    item := ReadBody(data, start, marker, p);
  }

  /** The length, payload and scan of a segment whose marker ends before p. */
  method ReadBody(data: bytes, start: nat, marker: byte, p: nat) returns (item: Item)
    requires start < p <= |data| - 2 && data[p - 1] == marker && SegmentMarker(marker)
    requires 0 < p - 1 - start == FillLength(data[start..])
    ensures Describes(item, data, start)
  {
    hide ParseFront, ScanLength, FillLength;
    ghost var s, f := data[start..], p - 1 - start;
    FrontSegment(s);
    var n := U16(Big, data, p);
    assert U16(Big, s, p - start) == n;
    if n < 2 || n > |data| - p {
      return BadItem;
    }
    var end := p + n;
    var payload := data[p + 2..end];
    assert s[p - start + 2..p - start + n] == payload && s[p - start + n..] == data[end..];
    assert SegmentSize(Segment(f, marker, payload, [])) == end - start;
    if marker != 218 {
      assert ParseFront(s) == Head(Segment(f, marker, payload, []));
      return SegmentItem(marker, payload, end, end);
    }
    var next := SkipScan(data, end);
    if next.None? {
      return BadItem;
    }
    assert data[end..][..next.value - end] == data[end..next.value];
    assert ParseFront(s) == Head(Segment(f, marker, payload, data[end..next.value]));
    return SegmentItem(marker, payload, end, next.value);
  }

  /** ParseFront up to the marker. */
  lemma FrontMarker(s: bytes)
    ensures var f := FillLength(s);
            && (f == 0 || f == |s| ==> ParseFront(s) == Bad)
            && (0 < f < |s| && s[f] == EOI ==> ParseFront(s) == Last(f))
            && (0 < f < |s| && s[f] != EOI && (!SegmentMarker(s[f]) || |s| - f < 3) ==> ParseFront(s) == Bad)
  {
  }

  /** ParseFront from the length on. */
  lemma FrontSegment(s: bytes)
    requires var f := FillLength(s); 0 < f <= |s| - 3 && SegmentMarker(s[f])
    ensures var f := FillLength(s);
            var n := U16(Big, s, f + 1);
            ParseFront(s) ==
            if n < 2 || n > |s| - f - 1 then Bad
            else if s[f] != SOS then Head(Segment(f, s[f], s[f + 3..f + 1 + n], []))
            else match ScanLength(s[f + 1 + n..])
                 case None => Bad
                 case Some(k) => Head(Segment(f, s[f], s[f + 3..f + 1 + n], s[f + 1 + n..][..k]))
  {
    hide ScanLength, FillLength, U16, IsScan, ValidSegment, SegmentSize;
    assert s[FillLength(s)] != EOI;
  }

  method SkipFill(data: bytes, start: nat) returns (p: nat)
    requires start <= |data|
    ensures start <= p <= |data| && p == start + FillLength(data[start..])
  {
    p := start;
    while p < |data| && data[p] == 255
      invariant start <= p <= |data|
      invariant forall i | start <= i < p :: data[i] == 255
    {
      p := p + 1;
    }
  }

  /** A plain byte, or a run of 0xFF with its stuffed zero or restart marker, belongs to the scan. */
  lemma ScanUnit(s: bytes, k: nat)
    requires s != [] && k == (if s[0] == FILL then FillLength(s) + 1 else 1) <= |s|
    requires s[0] == FILL ==> s[k - 1] == 0 || IsRestart(s[k - 1])
    ensures ScanLength(s) == Shift(ScanLength(s[k..]), k)
  {
    hide FillLength;
    if s[0] == FILL {
      var f := FillLength(s);
      assert f != |s| && s[f] == s[k - 1];
      assert ScanLength(s) == Shift(ScanLength(s[f + 1..]), f + 1);
    }
  }

  lemma ScanStops(s: bytes)
    ensures s == [] ==> ScanLength(s) == Some(0)
    ensures AtMarker(s) ==> ScanLength(s) == Some(0)
    ensures s != [] && FillLength(s) == |s| ==> ScanLength(s) == None
  {
  }

  /** Entropy-coded bytes, stuffed 0xFF00 and restart markers included. */
  method SkipScan(data: bytes, scan: nat) returns (r: Option<nat>)
    requires scan <= |data|
    ensures r == Shift(ScanLength(data[scan..]), scan)
  {
    hide ScanLength;
    var p := scan;
    while p < |data|
      invariant scan <= p <= |data|
      invariant Shift(ScanLength(data[scan..]), scan) == Shift(ScanLength(data[p..]), p)
    {
      ghost var s := data[p..];
      ScanStops(s);
      if data[p] != 255 {
        ScanUnit(s, 1);
        assert s[1..] == data[p + 1..];
        p := p + 1;
        continue;
      }
      var q := SkipFill(data, p);
      if q >= |data| {
        return None;
      }
      if data[q] == 0 || (data[q] >= 208 && data[q] <= 215) {
        ScanUnit(s, q - p + 1);
        assert s[q - p + 1..] == data[q + 1..];
        p := q + 1;
        continue;
      }
      return Some(p);
    }
    ScanStops(data[p..]);
    return Some(p);
  }

  /** The branches on one marker: what is written for the segment and its scan. */
  method StripSegment(marker: byte, payload: bytes, raw: bytes, scan: bytes, seenOrientation: bool, ghost g: Segment)
    returns (emitted: Option<bytes>)
    requires ValidSegment(g) && g.marker == marker && g.payload == payload && g.scan == scan
    requires Encode(g) == raw + scan
    ensures emitted == Emitted(g, seenOrientation)
  {
    hide Encode;
    SerializeOne(g);
    var keep := marker < 224 || marker > 239;
    if marker == 254 {
      keep := false;
    }
    if marker == 224 && JFIF_ID <= payload {
      if |payload| < 14 {
        return None;
      }
      var fixed := payload[..14][12 := 0][13 := 0];
      assert fixed == payload[..12] + [0, 0];
      JfifBytes(payload);
      return Some([255, 224, 0, 16] + fixed);
    }
    if marker == 238 && ADOBE_ID <= payload && |payload| == 12 {
      keep := true;
    }
    if marker == 226 && ICC_ID <= payload {
      keep := true;
    }
    if marker == 225 && EXIF_HEADER <= payload {
      if seenOrientation {
        return None;
      }
      var o := ReadOrientation(payload);
      if o.Err? {
        return None;
      }
      OrientationRange(payload);
      if o.value != 0 {
        var ex := EXIF_HEADER + OrientationExif(o.value);
        ExifBytes(o.value);
        return Some([255, 225, 0, |ex| + 2] + ex);
      }
    }
    if keep {
      return Some(raw + scan);
    }
    return Some([]);
  }

  lemma JfifBytes(payload: bytes)
    requires |payload| >= 14
    ensures Serialize([CleanJfif(payload)]) == [255, 224, 0, 16] + (payload[..12] + [0, 0])
  {
    SerializeOne(CleanJfif(payload));
    assert Fill(1) == [255];
    assert PutBE16(16) == [0, 16];
  }

  lemma ExifBytes(o: nat)
    requires o < 0x1_0000
    ensures Serialize([CleanExif(o)]) == [255, 225, 0, 34] + (EXIF_HEADER + OrientationExif(o))
  {
    SerializeOne(CleanExif(o));
    assert Fill(1) == [255];
    assert PutBE16(34) == [0, 34];
  }

  lemma Start(data: bytes)
    ensures Filter(data) ==
            if |data| < 4 || data[0] != 255 || data[1] != 216 then Err(Invalid)
            else Resume([255, 216], data[2..], false)
  {
  }

  lemma NoFront(out: bytes, s: bytes, seen: bool)
    ensures s == [] || ParseFront(s).Bad? ==> Resume(out, s, seen) == Err(Invalid)
  {
  }

  lemma AtEnd(out: bytes, s: bytes, seen: bool)
    requires |out| >= 2 && out[|out| - 2..] == [255, 217] && ParseFront(s).Last?
    ensures Resume(out[..|out| - 2], s, seen) == if |s| == ParseFront(s).fill + 1 then Ok(out) else Err(Invalid)
  {
    assert Fill(1) == [255];
    assert FilterSegments([], seen) == Some([]);
    assert Serialize([]) + End(1) == [255, 217];
    assert out == out[..|out| - 2] + [255, 217];
  }

  /** The bytes between start and next are the segment parsed at start. */
  lemma ParsedInPlace(data: bytes, start: nat, next: nat, g: Segment)
    requires start <= next <= |data| && ParseFront(data[start..]) == Head(g) && SegmentSize(g) == next - start
    ensures Encode(g) == data[start..next - |g.scan|] + g.scan
  {
    hide ParseFront, Encode, SegmentSize;
    var s := data[start..];
    var e := Encode(g);
    EncodeParseFront(s);
    EncodedSize(g);
    FrontInPlace(data, start, next, e);
    assert e == e[..|e| - |g.scan|] + e[|e| - |g.scan|..];
    assert e[..|e| - |g.scan|] == data[start..next - |g.scan|];
  }

  lemma EncodedSize(g: Segment)
    requires |g.payload| + 2 < 0x1_0000
    ensures |Encode(g)| == SegmentSize(g) >= |g.scan| && Encode(g)[|Encode(g)| - |g.scan|..] == g.scan
  {
    var h := Fill(g.fill) + [g.marker] + PutBE16(|g.payload| + 2) + g.payload;
    assert Encode(g) == h + g.scan;
  }

  lemma FrontInPlace(data: bytes, start: nat, next: nat, e: bytes)
    requires start <= next <= |data| && |e| == next - start && e <= data[start..]
    ensures data[start..next] == e
  {
    assert data[start..next] == data[start..][..next - start];
  }

  /** One turn of the loop moves the emitted bytes from the rest of the input to the output. */
  lemma Advance(out: bytes, data: bytes, start: nat, next: nat, seen: bool)
    requires start <= next <= |data|
    requires ParseFront(data[start..]).Head? && SegmentSize(ParseFront(data[start..]).segment) == next - start
    ensures var g := ParseFront(data[start..]).segment;
            Resume(out, data[start..], seen) ==
            match Emitted(g, seen)
            case None => Err(Invalid)
            case Some(h) => Resume(out + h, data[next..], seen || IsExif(g))
  {
    hide FilterStream, ParseFront, FilterSegment, Serialize, Encode;
    var s := data[start..];
    var g := ParseFront(s).segment;
    assert s[next - start..] == data[next..];
    FilterStreamStep(s, seen);
    if Emitted(g, seen).Some? && FilterStream(data[next..], seen || IsExif(g)).Some? {
      var h, t := Emitted(g, seen).value, FilterStream(data[next..], seen || IsExif(g)).value;
      assert out + (h + t) == out + h + t;
    }
  }

  // ----- What the filter keeps -----

  predicate NoExif(gs: seq<Segment>) {
    forall i | 0 <= i < |gs| :: !IsExif(gs[i])
  }

  predicate AtMostOneExif(gs: seq<Segment>) {
    forall i, j | 0 <= i < j < |gs| :: !(IsExif(gs[i]) && IsExif(gs[j]))
  }

  /** The copied segments, scans included, in order. */
  function Kept(gs: seq<Segment>): seq<Segment> {
    if gs == [] then [] else (if Copied(gs[0]) then [gs[0]] else []) + Kept(gs[1..])
  }

  /** The version, units and density bytes of the JFIF headers, in order. */
  function JfifHeaders(gs: seq<Segment>): seq<bytes> {
    if gs == [] then []
    else (if IsJfif(gs[0]) && |gs[0].payload| >= 12 then [gs[0].payload[..12]] else []) + JfifHeaders(gs[1..])
  }

  /** The orientation declared by the first EXIF segment, 0 without one. */
  function OrientationIn(gs: seq<Segment>): Result<nat> {
    if gs == [] then Ok(0)
    else if IsExif(gs[0]) then OrientationOf(gs[0].payload)
    else OrientationIn(gs[1..])
  }

  /** The APPn data left: a 14-byte JFIF header with no thumbnail, a colour profile,
      a 12-byte Adobe segment or the rewritten orientation; and never a comment. */
  predicate Clean(g: Segment) {
    && g.marker != COM
    && (IsApp(g.marker) ==>
          || (IsJfif(g) && |g.payload| == 14 && g.payload[12] == g.payload[13] == 0)
          || IsIcc(g)
          || IsAdobe(g)
          || exists o | 1 <= o <= 8 :: g == CleanExif(o))
  }

  lemma FilterParts(gs: seq<Segment>, seen: bool)
    requires gs != [] && AllValid(gs) && FilterSegments(gs, seen).Some?
    ensures FilterSegment(gs[0], seen).Emit?
    ensures FilterSegments(gs[1..], seen || IsExif(gs[0])).Some?
    ensures FilterSegments(gs, seen).value ==
            FilterSegment(gs[0], seen).segments + FilterSegments(gs[1..], seen || IsExif(gs[0])).value
  {
  }

  lemma CleanJfifAgain(payload: bytes)
    requires |payload| >= 14 && JFIF_ID <= payload
    ensures var g := CleanJfif(payload); IsJfif(g) && CleanJfif(g.payload) == g && g.payload[..12] == payload[..12]
  {
    var g := CleanJfif(payload);
    assert g.payload[..5] == payload[..5] == JFIF_ID;
    assert g.payload[..12] == payload[..12];
  }

  lemma CleanExifAgain(o: nat)
    requires 1 <= o <= 8
    ensures IsExif(CleanExif(o)) && FilterSegment(CleanExif(o), false) == Emit([CleanExif(o)])
    ensures OrientationOf(CleanExif(o).payload) == Ok(o)
  {
    OrientationRoundTrip(o);
  }

  /** What one segment becomes is clean and is a fixed point of the filter. */
  lemma FilterSegmentTwice(g: Segment, seen: bool)
    requires ValidSegment(g) && FilterSegment(g, seen).Emit? && FilterSegment(g, seen).segments != []
    ensures var h := FilterSegment(g, seen).segments[0];
            && Clean(h) && IsExif(h) == IsExif(g)
            && FilterSegment(h, seen) == FilterSegment(g, seen) == Emit([h])
  {
    if IsJfif(g) {
      CleanJfifAgain(g.payload);
    } else if IsExif(g) {
      OrientationRange(g.payload);
      CleanExifAgain(OrientationOf(g.payload).value);
    }
  }

  lemma {:induction false} FilteredIsClean(gs: seq<Segment>, seen: bool)
    requires AllValid(gs) && FilterSegments(gs, seen).Some?
    ensures forall h <- FilterSegments(gs, seen).value :: Clean(h)
    ensures seen ==> NoExif(FilterSegments(gs, seen).value)
    ensures AtMostOneExif(FilterSegments(gs, seen).value)
  {
    if gs != [] {
      FilterParts(gs, seen);
      FilteredIsClean(gs[1..], seen || IsExif(gs[0]));
      if FilterSegment(gs[0], seen).segments != [] {
        FilterSegmentTwice(gs[0], seen);
      }
    }
  }

  lemma {:induction false} SeenIsIrrelevant(gs: seq<Segment>, seen: bool)
    requires AllValid(gs) && NoExif(gs)
    ensures FilterSegments(gs, seen) == FilterSegments(gs, false)
  {
    if gs != [] {
      SeenIsIrrelevant(gs[1..], seen);
    }
  }

  /** A second pass over the segments changes nothing. */
  lemma {:induction false} FilterSegmentsTwice(gs: seq<Segment>, seen: bool)
    requires AllValid(gs) && FilterSegments(gs, seen).Some?
    ensures FilterSegments(FilterSegments(gs, seen).value, seen) == Some(FilterSegments(gs, seen).value)
  {
    hide FilterSegment, IsExif;
    if gs != [] {
      FilterParts(gs, seen);
      var g, seen' := gs[0], seen || IsExif(gs[0]);
      var head, tail := FilterSegment(g, seen).segments, FilterSegments(gs[1..], seen').value;
      FilterSegmentsTwice(gs[1..], seen');
      if head == [] {
        assert head + tail == tail;
        if IsExif(g) {
          FilteredIsClean(gs[1..], true);
          SeenIsIrrelevant(tail, true);
          SeenIsIrrelevant(tail, seen);
        }
      } else {
        FilterSegmentTwice(g, seen);
        assert head == [head[0]];
        FilterSegmentsCons(head[0], tail, seen);
      }
    }
  }

  /** What one segment contributes survives in what it becomes. */
  lemma FilterHeadKeeps(g: Segment, seen: bool, tail: seq<Segment>)
    requires ValidSegment(g) && FilterSegment(g, seen).Emit?
    ensures var head := FilterSegment(g, seen).segments;
            && Kept(head + tail) == (if Copied(g) then [g] else []) + Kept(tail)
            && JfifHeaders(head + tail) ==
               (if IsJfif(g) && |g.payload| >= 12 then [g.payload[..12]] else []) + JfifHeaders(tail)
            && OrientationIn(head + tail) ==
               (if head == [] || !IsExif(g) then OrientationIn(tail) else OrientationOf(g.payload))
            && (IsExif(g) && head == [] ==> OrientationOf(g.payload) == Ok(0))
  {
    var head := FilterSegment(g, seen).segments;
    if head == [] {
      assert head + tail == tail;
    } else {
      assert (head + tail)[1..] == tail && (head + tail)[0] == head[0];
      if IsJfif(g) {
        CleanJfifAgain(g.payload);
      } else if IsExif(g) {
        OrientationRange(g.payload);
        CleanExifAgain(OrientationOf(g.payload).value);
      }
    }
  }

  /** Copied segments, JFIF densities and the orientation survive. */
  lemma {:induction false} FilterKeeps(gs: seq<Segment>, seen: bool)
    requires AllValid(gs) && FilterSegments(gs, seen).Some?
    ensures Kept(FilterSegments(gs, seen).value) == Kept(gs)
    ensures JfifHeaders(FilterSegments(gs, seen).value) == JfifHeaders(gs)
    ensures OrientationIn(FilterSegments(gs, seen).value) == if seen then Ok(0) else OrientationIn(gs)
  {
    hide FilterSegment, IsExif, IsJfif, Copied, OrientationOf;
    if gs != [] {
      FilterParts(gs, seen);
      var seen' := seen || IsExif(gs[0]);
      FilterKeeps(gs[1..], seen');
      FilterHeadKeeps(gs[0], seen, FilterSegments(gs[1..], seen').value);
      NothingAfterSeen(gs[0], seen);
    }
  }

  lemma NothingAfterSeen(g: Segment, seen: bool)
    requires ValidSegment(g) && FilterSegment(g, seen).Emit?
    ensures !(seen && IsExif(g))
  {
  }

  lemma FilterSegmentShrinks(g: Segment, seen: bool)
    requires ValidSegment(g) && FilterSegment(g, seen).Emit?
    ensures |Serialize(FilterSegment(g, seen).segments)| <= |Encode(g)|
  {
    if FilterSegment(g, seen).segments != [] {
      SerializeOne(FilterSegment(g, seen).segments[0]);
      if IsExif(g) {
        OrientationNeeds26(g.payload);
      }
    }
  }

  /** Rewriting never makes the data longer. */
  lemma {:induction false} FilterShrinks(gs: seq<Segment>, seen: bool)
    requires AllValid(gs) && FilterSegments(gs, seen).Some?
    ensures |Serialize(FilterSegments(gs, seen).value)| <= |Serialize(gs)|
  {
    hide Encode, FilterSegment;
    if gs != [] {
      FilterParts(gs, seen);
      var seen' := seen || IsExif(gs[0]);
      FilterShrinks(gs[1..], seen');
      FilterSegmentShrinks(gs[0], seen);
      SerializeHead(FilterSegment(gs[0], seen).segments, FilterSegments(gs[1..], seen').value);
    }
  }

  /** A segment list is accepted exactly when its JFIF headers are complete and it has
      at most one, readable, EXIF block. */
  lemma {:induction false} FilterAccepts(gs: seq<Segment>, seen: bool)
    requires AllValid(gs)
    ensures FilterSegments(gs, seen).Some? <==>
            && (forall i | 0 <= i < |gs| && IsJfif(gs[i]) :: |gs[i].payload| >= 14)
            && (forall i | 0 <= i < |gs| && IsExif(gs[i]) :: !seen && OrientationOf(gs[i].payload).Ok?)
            && AtMostOneExif(gs)
  {
    hide OrientationOf;
    if gs != [] {
      FilterAccepts(gs[1..], seen || IsExif(gs[0]));
      assert gs == [gs[0]] + gs[1..];
    }
  }

  // ----- The results, on bytes -----

  lemma FilterUnfolds(data: bytes) returns (gs: seq<Segment>, fill: nat, hs: seq<Segment>)
    requires Filter(data).Ok?
    ensures AllValid(gs) && fill > 0 && Parse(data[2..]) == Some((gs, fill)) && data[..2] == [255, SOI]
    ensures AllValid(hs) && FilterSegments(gs, false) == Some(hs)
    ensures Filter(data) == Ok([255, SOI] + (Serialize(hs) + End(1)))
  {
    gs, fill := Parse(data[2..]).value.0, Parse(data[2..]).value.1;
    hs := FilterSegments(gs, false).value;
  }

  /**
   * The filtered image parses again. Its copied segments and their scans are those of the input,
   * byte for byte and in order; so are its JFIF densities; its orientation reads as before; and
   * no other application data is left.
   */
  lemma FilterPreserves(data: bytes)
    requires Filter(data).Ok?
    ensures var out := Filter(data).value;
            && |out| >= 4 && out[..2] == data[..2] == [255, SOI]
            && Parse(data[2..]).Some? && Parse(out[2..]).Some?
            && var gs, hs := Parse(data[2..]).value.0, Parse(out[2..]).value.0;
            && Parse(out[2..]).value.1 == 1
            && Kept(hs) == Kept(gs)
            && JfifHeaders(hs) == JfifHeaders(gs)
            && OrientationIn(hs) == OrientationIn(gs)
            && (forall h <- hs :: Clean(h)) && AtMostOneExif(hs)
  {
    var gs, fill, hs := FilterUnfolds(data);
    var out := Filter(data).value;
    assert out[2..] == Serialize(hs) + End(1);
    ParseSerialize(hs, 1);
    FilterKeeps(gs, false);
    FilteredIsClean(gs, false);
  }

  lemma FilterIdempotent(data: bytes)
    requires Filter(data).Ok?
    ensures Filter(Filter(data).value) == Filter(data)
  {
    var gs, fill, hs := FilterUnfolds(data);
    var out := Filter(data).value;
    assert out[2..] == Serialize(hs) + End(1);
    assert out[0] == 255 && out[1] == SOI;
    ParseSerialize(hs, 1);
    FilterSegmentsTwice(gs, false);
  }

  lemma FilterNeverGrows(data: bytes)
    requires Filter(data).Ok?
    ensures |Filter(data).value| <= |data|
  {
    var gs, fill, hs := FilterUnfolds(data);
    FilterShrinks(gs, false);
    SerializeParse(data[2..]);
  }
}
