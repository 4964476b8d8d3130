/** The bounded TIFF reader behind every EXIF block, and the block written in its place. */
module Tiff {
  import opened Bytes

  const EXIF_HEADER: bytes := [0x45, 0x78, 0x69, 0x66, 0, 0]
  const ORIENTATION_TAG := 0x112
  const SHORT_TYPE := 3

  /** A checked primary directory: `count` 12-byte entries starting at `first`. */
  datatype Ifd = Ifd(order: Order, first: nat, count: nat)

  predicate Fits(t: bytes, ifd: Ifd) {
    ifd.first + 12 * ifd.count + 4 <= |t|
  }

  /** The TIFF part of an EXIF block, whose "Exif" header is optional. */
  function TiffPart(exif: bytes): bytes {
    if EXIF_HEADER <= exif then exif[6..] else exif
  }

  function ByteOrder(t: bytes): Option<Order>
    requires |t| >= 2
  {
    if t[..2] == [0x49, 0x49] then Some(Little)
    else if t[..2] == [0x4D, 0x4D] then Some(Big)
    else None
  }

  function PrimaryIfd(t: bytes): (r: Option<Ifd>)
    ensures r.Some? ==> Fits(t, r.value)
  {
    if |t| < 8 || ByteOrder(t).None? then None else
    var o := ByteOrder(t).value;
    if U16(o, t, 2) != 42 then None else
    var offset := U32(o, t, 4);
    if offset + 2 > |t| then None else
    var n := U16(o, t, offset);
    if offset + 2 + n * 12 + 4 > |t| then None else
    Some(Ifd(o, offset + 2, n))
  }

  predicate IsOrientation(t: bytes, ifd: Ifd, i: nat)
    requires Fits(t, ifd) && i < ifd.count
  {
    U16(ifd.order, t, ifd.first + 12 * i) == ORIENTATION_TAG
  }

  function ValueAt(t: bytes, ifd: Ifd, i: nat): nat
    requires Fits(t, ifd) && i < ifd.count
  {
    U16(ifd.order, t, ifd.first + 12 * i + 8)
  }

  /** One SHORT whose value is an EXIF orientation. */
  predicate WellFormed(t: bytes, ifd: Ifd, i: nat)
    requires Fits(t, ifd) && i < ifd.count
  {
    && U16(ifd.order, t, ifd.first + 12 * i + 2) == SHORT_TYPE
    && U32(ifd.order, t, ifd.first + 12 * i + 4) == 1
    && 1 <= ValueAt(t, ifd, i) <= 8
  }

  function ScanFrom(t: bytes, ifd: Ifd, i: nat, found: nat): Result<nat>
    requires Fits(t, ifd) && i <= ifd.count
    decreases ifd.count - i
  {
    if i == ifd.count then Ok(found)
    else if !IsOrientation(t, ifd, i) then ScanFrom(t, ifd, i + 1, found)
    else if found != 0 || !WellFormed(t, ifd, i) then Err(Invalid)
    else ScanFrom(t, ifd, i + 1, ValueAt(t, ifd, i))
  }

  /** The orientation an EXIF block declares, 0 when it declares none. */
  function OrientationOf(exif: bytes): Result<nat> {
    var t := TiffPart(exif);
    match PrimaryIfd(t)
    case None => Err(Invalid)
    case Some(ifd) => ScanFrom(t, ifd, 0, 0)
  }

  lemma {:induction false} ScanError(t: bytes, ifd: Ifd, i: nat, found: nat)
    requires Fits(t, ifd) && i <= ifd.count
    ensures ScanFrom(t, ifd, i, found).Err? ==> ScanFrom(t, ifd, i, found).error == Invalid
    decreases ifd.count - i
  {
    hide IsOrientation, WellFormed, ValueAt;
    if i < ifd.count {
      ScanError(t, ifd, i + 1, if IsOrientation(t, ifd, i) then ValueAt(t, ifd, i) else found);
    }
  }

  /** A block is only ever refused for its form. */
  lemma OrientationError(exif: bytes)
    ensures OrientationOf(exif).Err? ==> OrientationOf(exif).error == Invalid
  {
    var t := TiffPart(exif);
    if PrimaryIfd(t).Some? {
      ScanError(t, PrimaryIfd(t).value, 0, 0);
    }
  }

  method ReadOrientation(input: bytes) returns (r: Result<nat>)
    ensures r == OrientationOf(input)
  {
    var exif := input;
    if EXIF_HEADER <= exif {
      exif := exif[6..];
    }
    if |exif| < 8 {
      return Err(Invalid);
    }
    var order;
    if exif[..2] == [0x49, 0x49] {
      order := Little;
    } else if exif[..2] == [0x4D, 0x4D] {
      order := Big;
    } else {
      return Err(Invalid);
    }
    if U16(order, exif, 2) != 42 {
      return Err(Invalid);
    }
    var offset := U32(order, exif, 4);
    if offset + 2 > |exif| {
      return Err(Invalid);
    }
    var n := U16(order, exif, offset);
    if offset + 2 + n * 12 + 4 > |exif| {
      return Err(Invalid);
    }
    r := ScanEntries(exif, order, offset, n);
  }

  method ScanEntries(exif: bytes, order: Order, offset: nat, n: nat) returns (r: Result<nat>)
    requires Fits(exif, Ifd(order, offset + 2, n))
    ensures r == ScanFrom(exif, Ifd(order, offset + 2, n), 0, 0)
  {
    hide U16, U32;
    var result := 0;
    ghost var ifd := Ifd(order, offset + 2, n);
    for i := 0 to n
      invariant ScanFrom(exif, ifd, 0, 0) == ScanFrom(exif, ifd, i, result)
    {
      var p := offset + 2 + 12 * i;
      var tag := U16(order, exif, p);
      assert IsOrientation(exif, ifd, i) <==> tag == 0x112;
      if tag == 0x112 {
        var value := U16(order, exif, p + 8);
        var typed := U16(order, exif, p + 2) == 3 && U32(order, exif, p + 4) == 1;
        assert WellFormed(exif, ifd, i) <==> typed && 1 <= value <= 8;
        if result != 0 || !typed {
          return Err(Invalid);
        }
        result := value;
        if result < 1 || result > 8 {
          return Err(Invalid);
        }
      }
    }
    return Ok(result);
  }

  // ----- What the reader means -----

  /** Entry i is the only orientation entry at or after `from`. */
  ghost predicate OnlyFrom(t: bytes, ifd: Ifd, from: nat, i: nat)
    requires Fits(t, ifd) && from <= i < ifd.count
  {
    && IsOrientation(t, ifd, i)
    && forall j | from <= j < ifd.count && j != i :: !IsOrientation(t, ifd, j)
  }

  ghost predicate NoneFrom(t: bytes, ifd: Ifd, from: nat)
    requires Fits(t, ifd)
  {
    forall j | from <= j < ifd.count :: !IsOrientation(t, ifd, j)
  }

  lemma {:induction false} ScanAfterFound(t: bytes, ifd: Ifd, i: nat, found: nat)
    requires Fits(t, ifd) && i <= ifd.count && found != 0
    ensures ScanFrom(t, ifd, i, found) ==
            if NoneFrom(t, ifd, i) then Ok(found) else Err(Invalid)
    decreases ifd.count - i
  {
    if i < ifd.count && !IsOrientation(t, ifd, i) {
      ScanAfterFound(t, ifd, i + 1, found);
    }
  }

  lemma {:induction false} ScanMeaning(t: bytes, ifd: Ifd, i: nat)
    requires Fits(t, ifd) && i <= ifd.count
    ensures ScanFrom(t, ifd, i, 0) == Ok(0) <==> NoneFrom(t, ifd, i)
    ensures forall o: nat | o != 0 ::
              ScanFrom(t, ifd, i, 0) == Ok(o) <==>
              exists k ::
                i <= k < ifd.count && OnlyFrom(t, ifd, i, k) && WellFormed(t, ifd, k) && ValueAt(t, ifd, k) == o
    decreases ifd.count - i
  {
    if i < ifd.count {
      if IsOrientation(t, ifd, i) {
        if WellFormed(t, ifd, i) {
          ScanAfterFound(t, ifd, i + 1, ValueAt(t, ifd, i));
          if NoneFrom(t, ifd, i + 1) {
            assert OnlyFrom(t, ifd, i, i);
          }
        }
      } else {
        ScanMeaning(t, ifd, i + 1);
        forall k | i + 1 <= k < ifd.count
          ensures OnlyFrom(t, ifd, i, k) <==> OnlyFrom(t, ifd, i + 1, k)
        {
        }
        assert NoneFrom(t, ifd, i) <==> NoneFrom(t, ifd, i + 1);
      }
    }
  }

  /**
   * The reader answers o exactly when the primary directory is in bounds and o is the value
   * of its only orientation entry, itself well formed; 0 stands for no such entry.
   */
  lemma OrientationMeaning(exif: bytes, o: nat)
    ensures OrientationOf(exif) == Ok(o) <==>
            var t := TiffPart(exif);
            PrimaryIfd(t).Some? &&
            var ifd := PrimaryIfd(t).value;
            if o == 0 then NoneFrom(t, ifd, 0)
            else
              exists k ::
                0 <= k < ifd.count && OnlyFrom(t, ifd, 0, k) && WellFormed(t, ifd, k) && ValueAt(t, ifd, k) == o
  {
    var t := TiffPart(exif);
    if PrimaryIfd(t).Some? {
      ScanMeaning(t, PrimaryIfd(t).value, 0);
    }
  }

  lemma OrientationRange(exif: bytes)
    ensures OrientationOf(exif).Ok? ==> 0 <= OrientationOf(exif).value <= 8
  {
    if OrientationOf(exif).Ok? && OrientationOf(exif).value != 0 {
      OrientationMeaning(exif, OrientationOf(exif).value);
    }
  }

  // ----- The block written in its place -----

  /** A little-endian directory holding only an orientation tag. */
  function OrientationExif(o: nat): (b: bytes)
    requires o < 0x1_0000
    ensures |b| == 26
  {
    BLOCK_HEADER + BLOCK_ENTRY + [o % 256, o / 256, 0, 0, 0, 0, 0, 0]
  }

  /** "II", 42, a directory at 8 with one entry. */
  const BLOCK_HEADER: bytes := [0x49, 0x49, 42, 0, 8, 0, 0, 0, 1, 0]

  /** Orientation tag, SHORT, count 1. */
  const BLOCK_ENTRY: bytes := [0x12, 1, 3, 0, 1, 0, 0, 0]

  /** The rewritten block, with or without the "Exif" header, reads back as the same value. */
  lemma OrientationRoundTrip(o: nat)
    requires 1 <= o <= 8
    ensures OrientationOf(OrientationExif(o)) == Ok(o)
    ensures OrientationOf(EXIF_HEADER + OrientationExif(o)) == Ok(o)
  {
    hide OrientationExif, PrimaryIfd, ScanFrom, TiffPart;
    OrientationBody(o);
    HeaderDrops(OrientationExif(o));
  }

  lemma HeaderDrops(t: bytes)
    ensures TiffPart(EXIF_HEADER + t) == t
  {
    assert (EXIF_HEADER + t)[6..] == t;
  }

  lemma OrientationBody(o: nat)
    requires 1 <= o <= 8
    ensures var t := OrientationExif(o); TiffPart(t) == t && PrimaryIfd(t) == Some(Ifd(Little, 10, 1))
    ensures ScanFrom(OrientationExif(o), Ifd(Little, 10, 1), 0, 0) == Ok(o)
  {
    var t := OrientationExif(o);
    assert t[0] == BLOCK_HEADER[0] != EXIF_HEADER[0];
    assert t[..10] == BLOCK_HEADER && t[10..18] == BLOCK_ENTRY && t[18] == o && t[19] == 0;
    BlockReads(t, o);
  }

  lemma BlockReads(t: bytes, o: byte)
    requires |t| == 26 && 1 <= o <= 8
    requires t[..10] == BLOCK_HEADER && t[10..18] == BLOCK_ENTRY && t[18] == o && t[19] == 0
    ensures PrimaryIfd(t) == Some(Ifd(Little, 10, 1))
    ensures ScanFrom(t, Ifd(Little, 10, 1), 0, 0) == Ok(o)
  {
    assert forall k | 0 <= k < 10 :: t[k] == t[..10][k];
    assert forall k | 0 <= k < 8 :: t[10 + k] == t[10..18][k];
    HeaderReads(t);
    EntryReads(t, o);
  }

  lemma HeaderReads(t: bytes)
    requires |t| == 26 && t[0] == t[1] == 0x49 && t[2] == 42 && t[3] == 0
    requires t[4] == 8 && t[5] == t[6] == t[7] == 0 && t[8] == 1 && t[9] == 0
    ensures PrimaryIfd(t) == Some(Ifd(Little, 10, 1))
  {
    assert t[..2] == [0x49, 0x49];
  }

  lemma EntryReads(t: bytes, o: byte)
    requires |t| == 26 && 1 <= o <= 8
    requires t[10] == 0x12 && t[11] == 1 && t[12] == 3 && t[13] == 0
    requires t[14] == 1 && t[15] == t[16] == t[17] == 0 && t[18] == o && t[19] == 0
    ensures ScanFrom(t, Ifd(Little, 10, 1), 0, 0) == Ok(o)
  {
    var ifd := Ifd(Little, 10, 1);
    assert IsOrientation(t, ifd, 0) && ValueAt(t, ifd, 0) == o && WellFormed(t, ifd, 0);
    assert ScanFrom(t, ifd, 1, o) == Ok(o);
  }

  /** A directory offset that points back into the header never reads a count of 1. */
  lemma HeaderIsNotACount(t: bytes, o: Order, offset: nat)
    requires |t| >= 10 && ByteOrder(t) == Some(o)
    requires U16(o, t, 2) == 42 && U32(o, t, 4) == offset < 8
    ensures U16(o, t, offset) != 1
  {
    assert t[..2][0] == t[0] && t[..2][1] == t[1];
    if o == Little {
      assert t[4] == offset && t[5] == t[6] == t[7] == 0;
    } else {
      assert t[7] == offset && t[4] == t[5] == t[6] == 0;
    }
  }

  /** No directory with an entry fits in fewer bytes. */
  lemma DirectoryNeeds26(t: bytes)
    requires PrimaryIfd(t).Some? && PrimaryIfd(t).value.count > 0
    ensures |t| >= 26
  {
    var o := ByteOrder(t).value;
    var offset := U32(o, t, 4);
    if offset < 8 {
      HeaderIsNotACount(t, o, offset);
    }
  }

  lemma OrientationNeeds26(exif: bytes)
    requires OrientationOf(exif).Ok? && OrientationOf(exif).value != 0
    ensures |TiffPart(exif)| >= 26
    ensures EXIF_HEADER <= exif ==> |exif| >= 32
  {
    OrientationMeaning(exif, OrientationOf(exif).value);
    DirectoryNeeds26(TiffPart(exif));
  }
}
