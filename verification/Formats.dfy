/**
 * The three containers and the EXIF block as their standards write them: names as letters, sizes as numbers, and
 * headers as bytes, against which the readers of the filters are proved.
 */
module Formats {
  import opened Bytes
  import Tiff
  import Png
  import Jpeg
  import WebP

  predicate IsAscii(s: string) {
    forall i | 0 <= i < |s| :: s[i] as int < 128
  }

  function Letter(c: char): byte
    requires c as int < 128
  {
    c as int
  }

  function Ascii(s: string): bytes
    requires IsAscii(s)
  {
    seq(|s|, i requires 0 <= i < |s| && IsAscii(s) => Letter(s[i]))
  }

  /** A four-letter name, read as a big-endian number. */
  function Name(s: string): Word
    requires |s| == 4 && IsAscii(s)
  {
    Four(Letter(s[3]), Letter(s[2]), Letter(s[1]), Letter(s[0]))
  }

  /** A number from its digits in base 256, the lowest first. */
  function Two(a: int, b: int): int {
    a + 0x100 * b
  }

  function Four(a: int, b: int, c: int, d: int): int {
    a + 0x100 * b + 0x1_0000 * c + 0x100_0000 * d
  }

  // ----- Names -----

  /** The chunks of a PNG file that are copied, that refuse it, and that are rewritten. */
  lemma PngNames(kind: Word)
    ensures Png.Allowed(kind) <==>
            || kind == Name("IHDR") || kind == Name("PLTE") || kind == Name("IDAT") || kind == Name("IEND")
            || kind == Name("tRNS") || kind == Name("cHRM") || kind == Name("gAMA") || kind == Name("iCCP")
            || kind == Name("sRGB") || kind == Name("sBIT")
    ensures Png.Animated(kind) <==> kind == Name("acTL") || kind == Name("fcTL") || kind == Name("fdAT")
    ensures Png.EXIF == Name("eXIf") && Png.IEND == Name("IEND")
  {
  }

  /** A PNG chunk is critical exactly if its first letter is a capital. */
  lemma PngCritical(a: byte, b: byte, c: byte, d: byte)
    requires 'A' as int <= a <= 'Z' as int || 'a' as int <= a <= 'z' as int
    ensures 0 <= Four(d, c, b, a) < 0x1_0000_0000 && (Png.Critical(Four(d, c, b, a)) <==> a <= 'Z' as int)
  {
    hide Four;
    var rest := Four(d, c, b, 0);
    TopByte(a, b, c, d);
    Quotient(a, rest);
    assert Four(d, c, b, a) / 0x2000_0000 == a / 32;
    assert a / 32 == if a <= 'Z' as int then 2 else 3;
  }

  lemma TopByte(a: byte, b: byte, c: byte, d: byte)
    ensures 0 <= Four(d, c, b, 0) < 0x100_0000 && Four(d, c, b, a) == a * 0x100_0000 + Four(d, c, b, 0)
    ensures 0 <= Four(d, c, b, a) < 0x1_0000_0000
  {
  }

  lemma Quotient(a: nat, rest: nat)
    requires rest < 0x100_0000
    ensures (a * 0x100_0000 + rest) / 0x2000_0000 == a / 32
  {
    var q, r := a / 32, a % 32;
    assert a * 0x100_0000 + rest == q * 0x2000_0000 + (r * 0x100_0000 + rest);
    assert r * 0x100_0000 + rest < 0x2000_0000;
  }

  /** The chunks of a WebP file that are copied, hold the frame, describe it, or refuse it. */
  lemma WebPNames(kind: Word)
    ensures WebP.IsFrame(kind) <==> kind == Name("VP8 ") || kind == Name("VP8L")
    ensures WebP.Copied(kind) <==>
            kind == Name("VP8 ") || kind == Name("VP8L") || kind == Name("ALPH") || kind == Name("ICCP")
    ensures WebP.VP8X == Name("VP8X") && WebP.EXIF == Name("EXIF")
    ensures WebP.ANIM == Name("ANIM") && WebP.ANMF == Name("ANMF")
    ensures WebP.RIFF == Name("RIFF") && WebP.WEBP == Name("WEBP")
  {
  }

  /**
   * The segments of a JPEG file that are copied: no application data or comment, save colour profiles and Adobe's
   * transform.
   */
  lemma JpegNames(g: Jpeg.Segment)
    ensures Jpeg.Copied(g) <==>
            || !(0xE0 <= g.marker <= 0xEF || g.marker == 0xFE)
            || (g.marker == 0xE2 && Ascii("ICC_PROFILE") + [0] <= g.payload)
            || (g.marker == 0xEE && Ascii("Adobe") <= g.payload && |g.payload| == 12)
    ensures Jpeg.IsRestart(g.marker) <==> 0xD0 <= g.marker <= 0xD7
    ensures Jpeg.SegmentMarker(g.marker) <==> g.marker != 0 && g.marker != 0xFF && !(0xD0 <= g.marker <= 0xD9)
    ensures Jpeg.IsJfif(g) <==> g.marker == 0xE0 && Ascii("JFIF") + [0] <= g.payload
    ensures Jpeg.IsExif(g) <==> g.marker == 0xE1 && Ascii("Exif") + [0, 0] <= g.payload
  {
    assert Ascii("ICC_PROFILE") + [0] == Jpeg.ICC_ID;
    assert Ascii("Adobe") == Jpeg.ADOBE_ID;
    assert Ascii("JFIF") + [0] == Jpeg.JFIF_ID;
    assert Ascii("Exif") + [0, 0] == Tiff.EXIF_HEADER;
  }

  // ----- Numbers -----

  /** What the bytes at a place mean in either order. */
  lemma Reads(b: bytes, p: nat)
    requires p + 4 <= |b|
    ensures U16(Big, b, p) == Two(b[p + 1], b[p]) && U16(Little, b, p) == Two(b[p], b[p + 1])
    ensures U32(Big, b, p) == Four(b[p + 3], b[p + 2], b[p + 1], b[p])
    ensures U32(Little, b, p) == Four(b[p], b[p + 1], b[p + 2], b[p + 3])
  {
  }

  // ----- Layouts -----

  /**
   * A PNG chunk is at the front of the data exactly if its length field leaves room for it and its checksum is right.
   */
  lemma PngChunkLayout(s: bytes, crc: Png.Checksum)
    ensures Png.ParseChunk(s, crc).Some? <==>
            && |s| >= 12
            && var n := Four(s[3], s[2], s[1], s[0]);
               && n + 12 <= |s|
               && crc(s[4..8 + n]) ==
                  Four(s[11 + n], s[10 + n], s[9 + n], s[8 + n])
    ensures Png.ParseChunk(s, crc).Some? ==>
              var n := Four(s[3], s[2], s[1], s[0]);
              Png.ParseChunk(s, crc).value ==
              Png.Chunk(Four(s[7], s[6], s[5], s[4]), s[8..8 + n])
  {
    hide U32;
    if |s| >= 12 {
      Reads(s, 0);
      Reads(s, 4);
      var n := U32(Big, s, 0);
      if n + 12 <= |s| {
        Reads(s, 8 + n);
      }
    }
  }

  /** A WebP chunk is at the front of the data exactly if its length field leaves room for it and its padding. */
  lemma WebPChunkLayout(s: bytes)
    ensures WebP.ParseChunk(s).Some? <==>
            && |s| >= 8
            && var n := Four(s[4], s[5], s[6], s[7]);
               8 + n + n % 2 <= |s|
    ensures WebP.ParseChunk(s).Some? ==>
              var n := Four(s[4], s[5], s[6], s[7]);
              WebP.ParseChunk(s).value ==
              WebP.Chunk(Four(s[3], s[2], s[1], s[0]), s[8..8 + n], s[8 + n..8 + n + n % 2])
  {
    hide U32;
    if |s| >= 8 {
      Reads(s, 0);
      Reads(s, 4);
    }
  }

  /** A WebP file starts with RIFF, the length of what follows, and WEBP. */
  lemma WebPFileLayout(data: bytes)
    ensures WebP.IsWebP(data) <==>
            && |data| >= 12 && data[..4] == Ascii("RIFF") && data[8..12] == Ascii("WEBP")
            && Four(data[4], data[5], data[6], data[7]) == |data| - 8
  {
    if |data| >= 12 {
      Reads(data, 4);
      FourLetters(data, 0, "RIFF");
      FourLetters(data, 8, "WEBP");
      assert data[0..4] == data[..4];
    }
  }

  /** Four bytes are a name exactly if they read as its number. */
  lemma FourLetters(b: bytes, p: nat, s: string)
    requires p + 4 <= |b| && |s| == 4 && IsAscii(s)
    ensures U32(Big, b, p) == Name(s) <==> b[p..p + 4] == Ascii(s)
  {
    var x, y := b[p..p + 4], Ascii(s);
    SlicedRead(Big, b, p);
    if U32(Big, x, 0) == Name(s) {
      assert U32(Big, y, 0) == Name(s);
      BE32Unique(x);
      BE32Unique(y);
    }
  }

  /** What the frame decoder is shown: a WebP file whose only chunk is the frame. */
  lemma FrameFileIsWebP(c: WebP.Chunk)
    requires WebP.ValidChunk(c) && WebP.ChunkSize(c) + 4 < 0x1_0000_0000
    ensures WebP.IsWebP(WebP.FrameFile(c)) && WebP.Parse(WebP.FrameFile(c)[12..]) == WebP.Listing([c], true)
  {
    hide WebP.Encode;
    WebP.SerializeOne(c);
    assert WebP.FrameFile(c) == WebP.File(WebP.Serialize([c]));
    WebP.FileReads(WebP.Serialize([c]));
    WebP.ParseSerialize([c]);
  }

  // ----- The extended header of a WebP file -----

  function Three(n: nat): bytes
    requires n < 0x100_0000
  {
    [n % 256, n / 256 % 256, n / 65536]
  }

  /** Flags, three reserved bytes, and width and height less one in three bytes each. */
  function ExtendedHeader(flags: byte, w: nat, h: nat): (b: bytes)
    requires 1 <= w <= 0x100_0000 && 1 <= h <= 0x100_0000
    ensures |b| == 10
  {
    [flags, 0, 0, 0] + Three(w - 1) + Three(h - 1)
  }

  lemma ThreeReads(n: nat)
    requires n < 0x100_0000
    ensures Quad(0, Three(n)[2], Three(n)[1], Three(n)[0]) == n
  {
    var m := n / 256;
    assert n / 65536 == m / 256;
    assert n == 256 * m + n % 256 && m == 256 * (m / 256) + m % 256;
  }

  /**
   * A header reads as the width and the height it was written with, and is valid if its animation and reserved bits are
   * clear.
   */
  lemma HeaderReads(flags: byte, w: nat, h: nat)
    requires 1 <= w <= 0x100_0000 && 1 <= h <= 0x100_0000
    ensures WebP.Canvas(ExtendedHeader(flags, w, h)) == WebP.Size(w, h)
    ensures WebP.ValidHeader(ExtendedHeader(flags, w, h)) <==> flags < 64 && flags % 4 == 0
  {
    ThreeReads(w - 1);
    ThreeReads(h - 1);
    var p := ExtendedHeader(flags, w, h);
    assert p[4] == Three(w - 1)[0] && p[5] == Three(w - 1)[1] && p[6] == Three(w - 1)[2];
    assert p[7] == Three(h - 1)[0] && p[8] == Three(h - 1)[1] && p[9] == Three(h - 1)[2];
  }

  /** Every valid header is written so. */
  lemma HeaderIsWritten(p: bytes) returns (w: nat, h: nat)
    requires WebP.ValidHeader(p)
    ensures 1 <= w <= 0x100_0000 && 1 <= h <= 0x100_0000 && p == ExtendedHeader(p[0], w, h)
  {
    w, h := 1 + Four(p[4], p[5], p[6], 0), 1 + Four(p[7], p[8], p[9], 0);
    ThreeWrites(p[4], p[5], p[6]);
    ThreeWrites(p[7], p[8], p[9]);
    assert p == [p[0], p[1], p[2], p[3]] + [p[4], p[5], p[6]] + [p[7], p[8], p[9]];
  }

  lemma ThreeWrites(a: byte, b: byte, c: byte)
    ensures var n := Four(a, b, c, 0); 0 <= n < 0x100_0000 && Three(n) == [a, b, c]
  {
    var n := Four(a, b, c, 0);
    var m := Two(b, c);
    assert n == 256 * m + a;
    assert n % 256 == a && n / 256 == m;
    assert m % 256 == b && m / 256 == c;
    assert n / 65536 == m / 256;
  }

  /** The chunks start with a header for a canvas of this size. */
  predicate Declares(cs: seq<WebP.Chunk>, flags: byte, w: nat, h: nat)
    requires 1 <= w <= 0x100_0000 && 1 <= h <= 0x100_0000
  {
    cs != [] && cs[0] == WebP.Chunk(Name("VP8X"), ExtendedHeader(flags, w, h), [])
  }

  /**
   * A file that declares a canvas is accepted only if its one frame has the width and the height of the canvas, and
   * the canvas at most twenty million pixels.
   */
  lemma CanvasIsFrame(data: bytes, decode: WebP.Decoder, flags: byte, w: nat, h: nat)
    requires 1 <= w <= 0x100_0000 && 1 <= h <= 0x100_0000 && |data| >= 12
    requires Declares(WebP.Parse(data[12..]).chunks, flags, w, h) && WebP.Filter(data, decode).Ok?
    ensures flags < 64 && flags % 4 == 0 && w * h <= 20_000_000
    ensures var frames := WebP.Frames(WebP.Parse(data[12..]).chunks);
            |frames| == 1 && WebP.ValidChunk(frames[0]) && decode(WebP.FrameFile(frames[0])) == Some(WebP.Size(w, h))
  {
    hide WebP.Filter, WebP.FrameFile, WebP.OrientationIn, WebP.Canvas, WebP.ValidHeader, ExtendedHeader;
    HeaderReads(flags, w, h);
    WebP.FilterAccepts(data, decode);
  }

  /** Conversely, such a file without other metadata or animation is accepted. */
  lemma CanvasSuffices(data: bytes, decode: WebP.Decoder, flags: byte, w: nat, h: nat, frame: WebP.Chunk)
    requires 1 <= w <= 0x100_0000 && 1 <= h <= 0x100_0000 && WebP.IsWebP(data)
    requires WebP.ValidChunk(frame) && WebP.IsFrame(frame.kind)
    requires WebP.Parse(data[12..]) ==
             WebP.Listing([WebP.Chunk(Name("VP8X"), ExtendedHeader(flags, w, h), []), frame], true)
    ensures WebP.Filter(data, decode).Ok? <==>
            && flags < 64 && flags % 4 == 0 && w * h <= 20_000_000
            && decode(WebP.FrameFile(frame)) == Some(WebP.Size(w, h))
  {
    hide WebP.Filter, WebP.FrameFile, WebP.Canvas, WebP.ValidHeader, ExtendedHeader, WebP.Frames, WebP.OrientationIn,
      WebP.AtMostOneExif, WebP.Acceptable, WebP.Parse, U32, Name;
    HeaderReads(flags, w, h);
    var header := WebP.Chunk(Name("VP8X"), ExtendedHeader(flags, w, h), []);
    TwoChunks(header, frame, decode);
    WebP.FilterAccepts(data, decode);
    var cs := WebP.Parse(data[12..]).chunks;
    assert cs == [header, frame] && cs[0] == header && cs[1] == frame && [frame][0] == frame;
    WebPNames(header.kind);
    assert WebP.AllAcceptable(cs, true, decode) <==>
           WebP.Acceptable(header, true, decode) && WebP.Acceptable(frame, false, decode);
  }

  /** A header and a frame are acceptable each by itself. */
  lemma TwoChunks(header: WebP.Chunk, frame: WebP.Chunk, decode: WebP.Decoder)
    requires header.kind == Name("VP8X") && WebP.IsFrame(frame.kind) && WebP.ValidChunk(header)
             && WebP.ValidChunk(frame)
    ensures WebP.Frames([header, frame]) == [frame] && WebP.OrientationIn([header, frame]) == Ok(0)
    ensures WebP.AtMostOneExif([header, frame])
    ensures WebP.Acceptable(header, true, decode) <==>
            WebP.ValidHeader(header.payload) && !WebP.TooLarge(WebP.Canvas(header.payload))
    ensures WebP.Acceptable(frame, false, decode) <==>
            decode(WebP.FrameFile(frame)).Some? && !WebP.TooLarge(decode(WebP.FrameFile(frame)).value)
  {
    hide WebP.ValidHeader, WebP.Canvas, WebP.FrameFile, WebP.TooLarge, Name;
    WebPNames(header.kind);
    WebPNames(frame.kind);
    assert Name("VP8X") != Name("EXIF") && Name("VP8X") != Name("VP8 ") && Name("VP8X") != Name("VP8L") by {
      WebPNames(WebP.VP8X);
    }
    var cs := [header, frame];
    assert cs[1..] == [frame] && [frame][1..] == [];
    assert WebP.Frames([frame]) == [frame] + WebP.Frames([]) && WebP.OrientationIn([frame]) == WebP.OrientationIn([]);
    assert WebP.Frames(cs) == [] + WebP.Frames([frame]) && WebP.OrientationIn(cs) == WebP.OrientationIn([frame]);
  }

  /** Of the flags of an accepted header only those for EXIF and XMP change. */
  lemma FlagsKept(flags: byte)
    ensures WebP.ClearFlags(flags) / 16 == flags / 16 && WebP.ClearFlags(flags) % 4 == flags % 4
    ensures WebP.ClearFlags(flags) / 4 % 4 == 0
  {
    var q, r := flags / 16, flags % 4;
    var n := 16 * q + r;
    assert WebP.ClearFlags(flags) == n;
    assert n / 16 == q && n / 4 == 4 * q;
  }

  /** The EXIF flag is raised, and no other changes. */
  lemma FlagRaised(flags: byte)
    ensures WebP.SetExif(flags) == if flags / 8 % 2 == 1 then flags else flags + 8
    ensures WebP.SetExif(flags) / 8 % 2 == 1
  {
    var q, r := flags / 8, flags % 8;
    assert (flags + 8) / 8 == q + 1;
  }

  // ----- EXIF -----

  datatype Entry = Entry(tag: nat, kind: nat, count: nat, value: nat)

  predicate Writable(e: Entry) {
    e.tag < 0x1_0000 && e.kind < 0x1_0000 && e.count < 0x1_0000_0000 && e.value < 0x1_0000
  }

  predicate AllWritable(es: seq<Entry>) {
    forall i | 0 <= i < |es| :: Writable(es[i])
  }

  function Put16(o: Order, n: nat): (b: bytes)
    requires n < 0x1_0000
    ensures |b| == 2 && U16(o, b, 0) == n
  {
    if o == Little then [n % 256, n / 256] else [n / 256, n % 256]
  }

  function Put32(o: Order, n: Word): (b: bytes)
    ensures |b| == 4 && U32(o, b, 0) == n
  {
    if o == Little then PutLE32(n) else PutBE32(n)
  }

  /** Twelve bytes: tag, kind, count, and the value in the first two of four bytes. */
  function PutEntry(o: Order, e: Entry): (b: bytes)
    requires Writable(e)
    ensures |b| == 12
  {
    Put16(o, e.tag) + Put16(o, e.kind) + Put32(o, e.count) + Put16(o, e.value) + [0, 0]
  }

  function PutEntries(o: Order, es: seq<Entry>): (b: bytes)
    requires AllWritable(es)
    ensures |b| == 12 * |es|
  {
    if es == [] then [] else PutEntries(o, es[..|es| - 1]) + PutEntry(o, es[|es| - 1])
  }

  function Mark(o: Order): bytes {
    if o == Little then Ascii("II") else Ascii("MM")
  }

  /** A block in either byte order whose primary directory stands behind a gap and is followed by more. */
  function Block(o: Order, gap: bytes, es: seq<Entry>, rest: bytes): bytes
    requires AllWritable(es) && |es| < 0x1_0000 && |gap| + 8 < 0x1_0000_0000
  {
    Mark(o) + Put16(o, 42) + Put32(o, 8 + |gap|) + gap + Put16(o, |es|) + PutEntries(o, es) + rest
  }

  /** Bytes read the same inside a longer string. */
  lemma ReadInside(o: Order, a: bytes, b: bytes, c: bytes, k: nat)
    ensures k + 2 <= |b| ==> U16(o, a + b + c, |a| + k) == U16(o, b, k)
    ensures k + 4 <= |b| ==> U32(o, a + b + c, |a| + k) == U32(o, b, k)
  {
  }

  /** The fields of an entry read back. */
  lemma EntryReads(o: Order, e: Entry)
    requires Writable(e)
    ensures var b := PutEntry(o, e);
            U16(o, b, 0) == e.tag && U16(o, b, 2) == e.kind && U32(o, b, 4) == e.count && U16(o, b, 8) == e.value
  {
    hide U16, U32, Put16, Put32;
    var b := PutEntry(o, e);
    ReadInside(o, [], Put16(o, e.tag), b[2..], 0);
    ReadInside(o, b[..2], Put16(o, e.kind), b[4..], 0);
    ReadInside(o, b[..4], Put32(o, e.count), b[8..], 0);
    ReadInside(o, b[..8], Put16(o, e.value), b[10..], 0);
    assert b == [] + Put16(o, e.tag) + b[2..];
    assert b == b[..2] + Put16(o, e.kind) + b[4..];
    assert b == b[..4] + Put32(o, e.count) + b[8..];
    assert b == b[..8] + Put16(o, e.value) + b[10..];
  }

  lemma {:induction false} EntryAt(o: Order, es: seq<Entry>, i: nat)
    requires AllWritable(es) && i < |es|
    ensures PutEntries(o, es)[12 * i..12 * i + 12] == PutEntry(o, es[i])
  {
    hide PutEntry;
    var n := |es| - 1;
    if i < n {
      EntryAt(o, es[..n], i);
      var front, last := PutEntries(o, es[..n]), PutEntry(o, es[n]);
      assert PutEntries(o, es) == front + last && 12 * i + 12 <= |front|;
      assert (front + last)[12 * i..12 * i + 12] == front[12 * i..12 * i + 12];
    }
  }

  /** The primary directory of a block is found. */
  lemma DirectoryFound(o: Order, gap: bytes, es: seq<Entry>, rest: bytes)
    requires AllWritable(es) && |es| < 0x1_0000 && |gap| + 8 < 0x1_0000_0000 && |rest| >= 4
    ensures var t := Block(o, gap, es, rest);
            Tiff.TiffPart(t) == t && Tiff.PrimaryIfd(t) == Some(Tiff.Ifd(o, 10 + |gap|, |es|))
  {
    hide U16, U32, Put16, Put32, PutEntries;
    var t := Block(o, gap, es, rest);
    BlockParts(o, gap, es, rest);
    ReadInside(o, t[..2], Put16(o, 42), t[4..], 0);
    ReadInside(o, t[..4], Put32(o, 8 + |gap|), t[8..], 0);
    ReadInside(o, t[..8 + |gap|], Put16(o, |es|), t[10 + |gap|..], 0);
    assert t[0] == Mark(o)[0] != Tiff.EXIF_HEADER[0];
    assert Mark(o) == if o == Little then [0x49, 0x49] else [0x4D, 0x4D];
  }

  /** The parts of a block, each in its place. */
  lemma BlockParts(o: Order, gap: bytes, es: seq<Entry>, rest: bytes)
    requires AllWritable(es) && |es| < 0x1_0000 && |gap| + 8 < 0x1_0000_0000
    ensures var t := Block(o, gap, es, rest);
            && |t| == 10 + |gap| + 12 * |es| + |rest| && t[..2] == Mark(o)
            && t == t[..2] + Put16(o, 42) + t[4..] && t == t[..4] + Put32(o, 8 + |gap|) + t[8..]
            && t == t[..8 + |gap|] + Put16(o, |es|) + t[10 + |gap|..]
  {
    hide U16, U32, Put16, Put32, PutEntries, Mark;
    var t := Block(o, gap, es, rest);
    var a, b, c, d, e := Mark(o), Put16(o, 42), Put32(o, 8 + |gap|), Put16(o, |es|), PutEntries(o, es) + rest;
    assert |a| == 2 by { MarkSize(o); }
    assert t == a + b + c + gap + d + e;
    assert t[..2] == a && t[2..4] == b && t[4..8] == c && t[8..8 + |gap|] == gap && t[8 + |gap|..10 + |gap|] == d;
  }

  lemma MarkSize(o: Order)
    ensures |Mark(o)| == 2
  {
  }

  /** What the reader sees of an entry. */
  lemma EntrySeen(o: Order, gap: bytes, es: seq<Entry>, rest: bytes, i: nat)
    requires AllWritable(es) && |es| < 0x1_0000 && |gap| + 8 < 0x1_0000_0000 && |rest| >= 4 && i < |es|
    ensures var t, ifd := Block(o, gap, es, rest), Tiff.Ifd(o, 10 + |gap|, |es|);
            && Tiff.Fits(t, ifd) && (Tiff.IsOrientation(t, ifd, i) <==> es[i].tag == 0x112)
            && Tiff.ValueAt(t, ifd, i) == es[i].value
            && (Tiff.WellFormed(t, ifd, i) <==> es[i].kind == 3 && es[i].count == 1 && 1 <= es[i].value <= 8)
  {
    hide U16, U32, Put16, Put32, PutEntries, PutEntry;
    var t, p, b := Block(o, gap, es, rest), 10 + |gap| + 12 * i, PutEntry(o, es[i]);
    EntryAt(o, es, i);
    EntryReads(o, es[i]);
    assert |t| == 10 + |gap| + 12 * |es| + |rest|;
    assert t[p..p + 12] == PutEntries(o, es)[12 * i..12 * i + 12];
    assert t == t[..p] + b + t[p + 12..];
    ReadInside(o, t[..p], b, t[p + 12..], 0);
    ReadInside(o, t[..p], b, t[p + 12..], 2);
    ReadInside(o, t[..p], b, t[p + 12..], 4);
    ReadInside(o, t[..p], b, t[p + 12..], 8);
  }

  /** Entry k is the only one with the orientation's tag. */
  predicate OnlyOrientation(es: seq<Entry>, k: nat)
    requires k < |es|
  {
    forall i | 0 <= i < |es| :: es[i].tag == 0x112 <==> i == k
  }

  /**
   * Whatever the byte order, the place of the directory and the other entries: an orientation is read exactly if one
   * entry carries the tag, once, as one SHORT from 1 to 8; none is read exactly if no entry does.
   */
  lemma OrientationRead(o: Order, gap: bytes, es: seq<Entry>, rest: bytes, n: nat)
    requires AllWritable(es) && |es| < 0x1_0000 && |gap| + 8 < 0x1_0000_0000 && |rest| >= 4
    ensures Tiff.OrientationOf(Block(o, gap, es, rest)) == Ok(n) <==>
            if n == 0 then forall i | 0 <= i < |es| :: es[i].tag != 0x112
            else
              exists k ::
                && 0 <= k < |es| && OnlyOrientation(es, k)
                && es[k].kind == 3 && es[k].count == 1 && 1 <= es[k].value <= 8 && es[k].value == n
  {
    hide Block, Tiff.IsOrientation, Tiff.WellFormed, Tiff.ValueAt, Tiff.PrimaryIfd, Tiff.OrientationOf, Tiff.TiffPart;
    var t, ifd := Block(o, gap, es, rest), Tiff.Ifd(o, 10 + |gap|, |es|);
    DirectoryFound(o, gap, es, rest);
    Tiff.OrientationMeaning(t, n);
    forall i | 0 <= i < |es|
      ensures Tiff.Fits(t, ifd) && (Tiff.IsOrientation(t, ifd, i) <==> es[i].tag == 0x112)
      ensures Tiff.ValueAt(t, ifd, i) == es[i].value
      ensures Tiff.WellFormed(t, ifd, i) <==> es[i].kind == 3 && es[i].count == 1 && 1 <= es[i].value <= 8
    {
      EntrySeen(o, gap, es, rest, i);
    }
    if es == [] {
      assert Tiff.Fits(t, ifd);
    }
    if k :| 0 <= k < |es| && OnlyOrientation(es, k) {
      assert Tiff.OnlyFrom(t, ifd, 0, k);
    }
    if k :| 0 <= k < |es| && Tiff.OnlyFrom(t, ifd, 0, k) {
      assert OnlyOrientation(es, k);
    }
  }
}
