/** Printing and reading RFC 3339 timestamps (section 5.6 of RFC 3339), on ASCII text. */
module Rfc3339 {
  import opened Bytes
  import opened Civil

  type Ascii = c: char | c as int < 128
  type Text = seq<Ascii>

  // ----- Integers as text -----

  predicate IsDigit(c: char) {
    '0' <= c <= '9'
  }

  function DigitValue(c: char): nat
    requires IsDigit(c)
  {
    c as int - '0' as int
  }

  function Digit(n: nat): (c: Ascii)
    requires n < 10
    ensures IsDigit(c) && DigitValue(c) == n
  {
    (n + 48) as char
  }

  /** The value of a string of digits. */
  function Digits(s: Text): Option<nat> {
    if s == [] then Some(0)
    else if !IsDigit(s[|s| - 1]) then None
    else match Digits(s[..|s| - 1])
      case None => None
      case Some(n) => Some(10 * n + DigitValue(s[|s| - 1]))
  }

  /** Signed decimal text: an optional sign and at least one digit. */
  function ParseInt(s: Text): Option<int> {
    if s == [] then None
    else if s[0] == '-' || s[0] == '+' then
      if |s| == 1 then None else
      match Digits(s[1..])
      case None => None
      case Some(n) => var size: int := n; Some(if s[0] == '-' then -size else size)
    else Digits(s)
  }

  function Decimal(n: nat): (s: Text)
    ensures s != [] && forall c <- s :: IsDigit(c)
  {
    if n < 10 then [Digit(n)] else Decimal(n / 10) + [Digit(n % 10)]
  }

  function Zeros(n: nat): (s: Text)
    ensures |s| == n && forall c <- s :: c == '0'
  {
    seq(n, i => '0')
  }

  /** Decimal text filled with zeros on the left, the sign counted in the width. */
  function Pad(n: int, width: nat): Text
    decreases n < 0
  {
    if n < 0 then ['-'] + Pad(-n, if width > 0 then width - 1 else 0)
    else var s := Decimal(n); if |s| >= width then s else Zeros(width - |s|) + s
  }

  // ----- The printer and the reader -----

  const DAY := 86_400

  function YearOf(t: int): int {
    CivilFromDays(t / DAY).year
  }

  function Format(t: int): Text {
    var days, secs := t / DAY, t % DAY;
    var date := CivilFromDays(days);
    Pad(date.year, 4) + ['-'] + Pad(date.month, 2) + ['-'] + Pad(date.day, 2) + ['T']
    + Pad(secs / 3600, 2) + [':'] + Pad(secs % 3600 / 60, 2) + [':'] + Pad(secs % 60, 2) + ['Z']
  }

  predicate IsSpace(c: char) {
    c == ' ' || 9 <= c as int <= 13
  }

  function TrimLeft(s: Text): Text {
    if s != [] && IsSpace(s[0]) then TrimLeft(s[1..]) else s
  }

  function TrimRight(s: Text): Text {
    if s != [] && IsSpace(s[|s| - 1]) then TrimRight(s[..|s| - 1]) else s
  }

  function Trim(s: Text): Text {
    TrimRight(TrimLeft(s))
  }

  predicate IsZone(c: char) {
    c == 'Z' || c == '+' || c == '-'
  }

  /** The text from the first zone character on. */
  function ZonePart(s: Text): Text {
    if s == [] || IsZone(s[0]) then s else ZonePart(s[1..])
  }

  /** The offset a zone stands for, in seconds. */
  function Offset(zone: Text): Option<int> {
    if zone == [] || zone[0] == 'Z' then Some(0)
    else if |zone| < 6 then None
    else match (ParseInt(zone[1..3]), ParseInt(zone[4..6]))
      case (Some(h), Some(m)) =>
        var size := h * 3600 + m * 60;
        Some(if zone[0] == '-' then -size else size)
      case _ => None
  }

  /** The six numbers at the fixed columns of a timestamp, as seconds since the epoch. */
  function Fields(s: Text): Option<int>
    requires |s| >= 19
  {
    match (ParseInt(s[0..4]), ParseInt(s[5..7]), ParseInt(s[8..10]), ParseInt(s[11..13]), ParseInt(s[14..16]),
           ParseInt(s[17..19]))
    case (Some(y), Some(m), Some(d), Some(hh), Some(mm), Some(ss)) =>
      Some(DaysFromCivil(y, m, d) * DAY + hh * 3600 + mm * 60 + ss)
    case _ => None
  }

  function Parse(text: Text): Option<int> {
    var s := Trim(text);
    if |s| < 19 then None else
    match (Fields(s), Offset(ZonePart(s[19..])))
    case (Some(v), Some(offset)) => Some(v - offset)
    case _ => None
  }

  // ----- Digits -----

  lemma DigitsSnoc(s: Text, c: Ascii)
    ensures Digits(s + [c]) == if !IsDigit(c) then None else
              match Digits(s) case None => None case Some(n) => Some(10 * n + DigitValue(c))
  {
    assert (s + [c])[..|s|] == s;
  }

  lemma {:induction false} DecimalDigits(n: nat)
    ensures Digits(Decimal(n)) == Some(n)
  {
    if n < 10 {
      DigitsSnoc([], Digit(n));
      assert [] + [Digit(n)] == [Digit(n)];
    } else {
      DecimalDigits(n / 10);
      DigitsSnoc(Decimal(n / 10), Digit(n % 10));
    }
  }

  lemma {:induction false} LeadingZeros(k: nat, s: Text)
    requires Digits(s).Some?
    ensures Digits(Zeros(k) + s) == Digits(s)
  {
    if s == [] {
      assert Zeros(k) + s == Zeros(k);
      ZerosAreZero(k);
    } else {
      var t, c := s[..|s| - 1], s[|s| - 1];
      LeadingZeros(k, t);
      DigitsSnoc(Zeros(k) + t, c);
      assert Zeros(k) + s == Zeros(k) + t + [c];
    }
  }

  lemma {:induction false} ZerosAreZero(k: nat)
    ensures Digits(Zeros(k)) == Some(0)
  {
    if k > 0 {
      ZerosAreZero(k - 1);
      DigitsSnoc(Zeros(k - 1), '0');
      assert Zeros(k) == Zeros(k - 1) + ['0'];
    }
  }

  /** Padded text reads back as the number it was made from. */
  lemma PadParses(n: int, width: nat)
    requires width > 0
    ensures ParseInt(Pad(n, width)) == Some(n)
    ensures |Pad(n, width)| >= width
    ensures n >= 0 ==> IsDigit(Pad(n, width)[0])
  {
    var m := if n < 0 then -n else n;
    var w := if n < 0 then width - 1 else width;
    DecimalDigits(m);
    if |Decimal(m)| < w {
      LeadingZeros(w - |Decimal(m)|, Decimal(m));
    }
    assert Digits(Pad(m, w)) == Some(m);
    if n >= 0 {
      assert Pad(n, width)[0] in Decimal(n) || Pad(n, width)[0] == '0';
    } else {
      assert Pad(n, width)[1..] == Pad(m, w);
    }
  }

  /** A number keeps its width exactly when it fits. */
  lemma {:induction false} DecimalLength(n: nat)
    ensures |Decimal(n)| == 1 <==> n < 10
    ensures |Decimal(n)| <= 2 <==> n < 100
    ensures |Decimal(n)| <= 3 <==> n < 1000
    ensures |Decimal(n)| <= 4 <==> n < 10_000
    ensures |Decimal(n)| <= 5 <==> n < 100_000
  {
    if n >= 10 {
      DecimalLength(n / 10);
    }
  }

  lemma TwoColumns(n: nat)
    requires n < 100
    ensures |Pad(n, 2)| == 2 && ParseInt(Pad(n, 2)) == Some(n)
  {
    PadParses(n, 2);
    DecimalLength(n);
  }

  lemma YearColumns(y: int)
    ensures |Pad(y, 4)| >= 4 && (|Pad(y, 4)| == 4 <==> -999 <= y <= 9999)
    ensures |Pad(y, 4)| >= 6 ==> y < -9999 || y > 99_999
    ensures ParseInt(Pad(y, 4)) == Some(y) && !IsSpace(Pad(y, 4)[0])
  {
    PadParses(y, 4);
    DecimalLength(if y < 0 then -y else y);
  }

  // ----- Printed text -----

  /** The printed date, time and zone, column by column after the year. */
  lemma FormatColumns(t: int)
    ensures var s, w := Format(t), |Pad(YearOf(t), 4)|;
            var date, secs := CivilFromDays(t / DAY), t % DAY;
            && |s| == w + 16
            && s[..w] == Pad(date.year, 4)
            && s[w] == '-' && s[w + 1..w + 3] == Pad(date.month, 2)
            && s[w + 3] == '-' && s[w + 4..w + 6] == Pad(date.day, 2)
            && s[w + 6] == 'T' && s[w + 7..w + 9] == Pad(secs / 3600, 2)
            && s[w + 9] == ':' && s[w + 10..w + 12] == Pad(secs % 3600 / 60, 2)
            && s[w + 12] == ':' && s[w + 13..w + 15] == Pad(secs % 60, 2)
            && s[w + 15] == 'Z'
  {
    hide CivilFromDays, Pad;
    var date, secs := CivilFromDays(t / DAY), t % DAY;
    DaysRoundTrip(t / DAY);
    TwoColumns(date.month);
    TwoColumns(date.day);
    TwoColumns(secs / 3600);
    TwoColumns(secs % 3600 / 60);
    TwoColumns(secs % 60);
    Columns(Pad(date.year, 4), Pad(date.month, 2), Pad(date.day, 2), Pad(secs / 3600, 2), Pad(secs % 3600 / 60, 2),
            Pad(secs % 60, 2));
  }

  lemma Columns(y: Text, m: Text, d: Text, hh: Text, mm: Text, ss: Text)
    requires |m| == |d| == |hh| == |mm| == |ss| == 2
    ensures var s, w := y + ['-'] + m + ['-'] + d + ['T'] + hh + [':'] + mm + [':'] + ss + ['Z'], |y|;
            && |s| == w + 16
            && s[..w] == y
            && s[w] == '-' && s[w + 1..w + 3] == m
            && s[w + 3] == '-' && s[w + 4..w + 6] == d
            && s[w + 6] == 'T' && s[w + 7..w + 9] == hh
            && s[w + 9] == ':' && s[w + 10..w + 12] == mm
            && s[w + 12] == ':' && s[w + 13..w + 15] == ss
            && s[w + 15] == 'Z'
  {
  }

  lemma TrimKeeps(s: Text)
    requires s != [] && !IsSpace(s[0]) && !IsSpace(s[|s| - 1])
    ensures Trim(s) == s
  {
  }

  lemma FormatNotTrimmed(t: int)
    ensures Trim(Format(t)) == Format(t)
  {
    hide Format;
    FormatColumns(t);
    YearColumns(YearOf(t));
    assert Format(t)[0] == Format(t)[..|Pad(YearOf(t), 4)|][0];
    TrimKeeps(Format(t));
  }

  /** A four-column year puts every number where the reader looks for it. */
  lemma ParseFourColumns(t: int)
    requires |Pad(YearOf(t), 4)| == 4
    ensures Parse(Format(t)) == Some(t)
  {
    hide Format, Trim, CivilFromDays, DaysFromCivil, Fields;
    FieldsReadBack(t);
    FormatNotTrimmed(t);
    assert ZonePart(['Z']) == ['Z'];
  }

  lemma FieldsReadBack(t: int)
    requires |Pad(YearOf(t), 4)| == 4
    ensures |Format(t)| == 20 && Format(t)[19..] == ['Z'] && Fields(Format(t)) == Some(t)
  {
    hide Format, CivilFromDays, DaysFromCivil, Pad, ParseInt, Fields;
    var s := Format(t);
    var date, secs := CivilFromDays(t / DAY), t % DAY;
    FormatColumns(t);
    YearColumns(date.year);
    DaysRoundTrip(t / DAY);
    TwoColumns(date.month);
    TwoColumns(date.day);
    TwoColumns(secs / 3600);
    TwoColumns(secs % 3600 / 60);
    TwoColumns(secs % 60);
    assert s[0..4] == s[..4];
    FieldsAre(s, date, secs / 3600, secs % 3600 / 60, secs % 60);
    assert secs == secs / 3600 * 3600 + secs % 3600 / 60 * 60 + secs % 60;
  }

  lemma FieldsAre(s: Text, date: Date, hh: int, mm: int, ss: int)
    requires |s| >= 19
    requires ParseInt(s[0..4]) == Some(date.year)
    requires ParseInt(s[5..7]) == Some(date.month)
    requires ParseInt(s[8..10]) == Some(date.day)
    requires ParseInt(s[11..13]) == Some(hh)
    requires ParseInt(s[14..16]) == Some(mm)
    requires ParseInt(s[17..19]) == Some(ss)
    ensures Fields(s) == Some(DaysFromCivil(date.year, date.month, date.day) * DAY + hh * 3600 + mm * 60 + ss)
  {
    hide ParseInt, DaysFromCivil;
  }

  /** A fifth column puts the "T" where the reader expects the hour. */
  lemma ParseFiveColumns(t: int)
    requires |Pad(YearOf(t), 4)| == 5
    ensures Parse(Format(t)) == None
  {
    hide Format, Trim, CivilFromDays, DaysFromCivil, Pad;
    var s := Format(t);
    FormatColumns(t);
    FormatNotTrimmed(t);
    var hour := s[11..13];
    assert hour[0] == 'T' && !IsDigit('T');
    assert hour[..1][..0] == [] && hour[..1][0] == 'T';
    assert Digits(hour[..1]) == None;
    assert ParseInt(hour) == None;
  }

  // ----- Longer years -----

  lemma {:induction false} DigitsBound(s: Text)
    requires Digits(s).Some?
    ensures |s| <= 1 ==> Digits(s).value < 10
    ensures |s| <= 2 ==> Digits(s).value < 100
    ensures |s| <= 3 ==> Digits(s).value < 1000
    ensures |s| <= 4 ==> Digits(s).value < 10_000
  {
    if s != [] {
      DigitsBound(s[..|s| - 1]);
    }
  }

  lemma TwoBound(s: Text)
    requires |s| == 2 && ParseInt(s).Some?
    ensures -9 <= ParseInt(s).value <= 99
  {
    if s[0] == '-' || s[0] == '+' {
      DigitsBound(s[1..]);
    } else {
      DigitsBound(s);
    }
  }

  lemma FourBound(s: Text)
    requires |s| == 4 && ParseInt(s).Some?
    ensures -999 <= ParseInt(s).value <= 9999
  {
    if s[0] == '-' || s[0] == '+' {
      DigitsBound(s[1..]);
    } else {
      DigitsBound(s);
    }
  }

  lemma OffsetBound(zone: Text)
    requires Offset(zone).Some?
    ensures -400_000 <= Offset(zone).value <= 400_000
  {
    if zone != [] && zone[0] != 'Z' {
      TwoBound(zone[1..3]);
      TwoBound(zone[4..6]);
    }
  }

  lemma DaysBound(y: int, m: int, d: int)
    requires -999 <= y <= 9999 && -9 <= m <= 99 && -9 <= d <= 99
    ensures -1_200_000 <= DaysFromCivil(y, m, d) <= 3_000_000
  {
  }

  /** Four columns of year cannot reach far. */
  lemma ParseBound(text: Text)
    requires Parse(text).Some?
    ensures -1_300_000 * DAY <= Parse(text).value <= 3_100_000 * DAY
  {
    hide Trim, ZonePart, Offset, DaysFromCivil, ParseInt;
    var s := Trim(text);
    OffsetBound(ZonePart(s[19..]));
    FourBound(s[0..4]);
    TwoBound(s[5..7]);
    TwoBound(s[8..10]);
    TwoBound(s[11..13]);
    TwoBound(s[14..16]);
    TwoBound(s[17..19]);
    DaysBound(ParseInt(s[0..4]).value, ParseInt(s[5..7]).value, ParseInt(s[8..10]).value);
  }

  lemma FarYears(t: int)
    requires YearOf(t) < -9999 || YearOf(t) > 99_999
    ensures t < -4_000_000 * DAY || t > 35_000_000 * DAY
  {
    hide CivilFromDays;
    var date := CivilFromDays(t / DAY);
    DaysRoundTrip(t / DAY);
    FarDays(date.year, date.month, date.day);
  }

  lemma FarDays(y: int, m: int, d: int)
    requires 1 <= m <= 12 && 1 <= d <= 31
    ensures y > 99_999 ==> DaysFromCivil(y, m, d) > 35_000_000
    ensures y < -9999 ==> DaysFromCivil(y, m, d) < -4_000_001
  {
  }

  /** Reading inverts printing exactly for the years that print in four columns. */
  lemma RoundTrip(t: int)
    ensures Parse(Format(t)) == Some(t) <==> -999 <= YearOf(t) <= 9999
  {
    hide Parse, Format, CivilFromDays, Pad;
    YearColumns(YearOf(t));
    if |Pad(YearOf(t), 4)| == 4 {
      ParseFourColumns(t);
    } else if |Pad(YearOf(t), 4)| == 5 {
      ParseFiveColumns(t);
    } else {
      FarYears(t);
      if Parse(Format(t)).Some? {
        ParseBound(Format(t));
      }
    }
  }

  /** The first instant of the year 10000 prints and does not read back. */
  lemma RoundTripFails()
    ensures YearOf(253_402_300_800) == 10_000
    ensures Parse(Format(253_402_300_800)) != Some(253_402_300_800)
  {
    hide Parse, Format, CivilFromDays;
    assert DaysFromCivil(10_000, 1, 1) * DAY == 253_402_300_800;
    DateRoundTrip(Date(10_000, 1, 1));
    RoundTrip(253_402_300_800);
  }

  // ----- Explicit offsets -----

  /** A zone behind text that holds no zone character of its own is found. */
  lemma {:induction false} ZoneFound(fraction: Text, zone: Text)
    requires zone != [] && IsZone(zone[0]) && forall c <- fraction :: !IsZone(c)
    ensures ZonePart(fraction + zone) == zone
  {
    if fraction == [] {
      assert fraction + zone == zone;
    } else {
      assert (fraction + zone)[1..] == fraction[1..] + zone;
      assert fraction[0] in fraction;
      ZoneFound(fraction[1..], zone);
    }
  }

  /** Nineteen columns and any fraction, followed by a zone. */
  lemma ParseWithZone(body: Text, fraction: Text, zone: Text)
    requires |body| == 19 && !IsSpace(body[0]) && forall c <- fraction :: !IsZone(c)
    requires zone != [] && IsZone(zone[0]) && !IsSpace(zone[|zone| - 1])
    ensures Parse(body + fraction + zone) ==
            match (Fields(body), Offset(zone))
            case (Some(v), Some(offset)) => Some(v - offset)
            case _ => None
  {
    hide ParseInt, DaysFromCivil, Offset, ZonePart;
    var s := body + fraction + zone;
    assert s[0] == body[0] && s[|s| - 1] == zone[|zone| - 1];
    TrimKeeps(s);
    assert s[19..] == fraction + zone;
    ZoneFound(fraction, zone);
    assert s[0..4] == body[0..4] && s[5..7] == body[5..7] && s[8..10] == body[8..10];
    assert s[11..13] == body[11..13] && s[14..16] == body[14..16] && s[17..19] == body[17..19];
  }

  /** Replacing "Z" by an explicit offset moves the instant by exactly that offset. */
  lemma OffsetShifts(body: Text, fraction: Text, sign: Ascii, h: nat, m: nat)
    requires |body| == 19 && !IsSpace(body[0]) && forall c <- fraction :: !IsZone(c)
    requires (sign == '+' || sign == '-') && h < 100 && m < 100
    ensures var zone := [sign] + Pad(h, 2) + [':'] + Pad(m, 2);
            Parse(body + fraction + zone) ==
            match Parse(body + fraction + ['Z'])
            case None => None
            case Some(v) => Some(if sign == '+' then v - (h * 3600 + m * 60) else v + (h * 3600 + m * 60))
  {
    hide Fields, ParseInt, Pad;
    TwoColumns(h);
    TwoColumns(m);
    PadParses(m, 2);
    var zone := [sign] + Pad(h, 2) + [':'] + Pad(m, 2);
    assert zone[1..3] == Pad(h, 2) && zone[4..6] == Pad(m, 2);
    LastDigit(m);
    assert zone[5] == Pad(m, 2)[1];
    ParseWithZone(body, fraction, zone);
    ParseWithZone(body, fraction, ['Z']);
  }

  lemma LastDigit(m: nat)
    requires m < 100
    ensures |Pad(m, 2)| == 2 && !IsSpace(Pad(m, 2)[1])
  {
    TwoColumns(m);
    var s := Decimal(m);
    assert Pad(m, 2)[1] == s[|s| - 1];
    assert s[|s| - 1] in s;
  }

  // ----- What the reader takes for a number -----

  /** The ten digits stand for the ten values. */
  lemma DigitsAreDecimal(n: nat)
    requires n < 10
    ensures Digit(n) == "0123456789"[n]
  {
  }

  predicate Decimals(s: Text) {
    forall i :: 0 <= i < |s| ==> '0' <= s[i] <= '9'
  }

  /** The value of digits, the last one lowest. */
  function Horner(s: Text): nat
    requires Decimals(s)
  {
    if s == [] then 0 else 10 * Horner(s[..|s| - 1]) + (s[|s| - 1] as int - 48)
  }

  lemma {:induction false} DigitsExactly(s: Text)
    ensures Digits(s).Some? <==> Decimals(s)
    ensures Decimals(s) ==> Digits(s) == Some(Horner(s))
  {
    if s != [] {
      var front := s[..|s| - 1];
      DigitsExactly(front);
      assert forall i :: 0 <= i < |front| ==> front[i] == s[i];
      assert Decimals(s) <==> Decimals(front) && IsDigit(s[|s| - 1]);
    }
  }

  /** The text behind one leading sign, if there is one. */
  function Unsigned(s: Text): Text {
    if s != [] && (s[0] == '-' || s[0] == '+') then s[1..] else s
  }

  /** A number is one optional sign and at least one digit, and nothing else. */
  lemma ParseIntExactly(s: Text)
    ensures ParseInt(s).Some? <==> Unsigned(s) != [] && Decimals(Unsigned(s))
    ensures ParseInt(s).Some? ==>
              ParseInt(s).value == (if s[0] == '-' then -1 else 1) * Horner(Unsigned(s))
  {
    hide Horner;
    DigitsExactly(Unsigned(s));
  }

  // ----- White space around the text -----

  /** Spaces, tabs, line feeds, vertical tabs, form feeds and carriage returns. */
  predicate Blank(s: Text) {
    forall i :: 0 <= i < |s| ==> s[i] == ' ' || s[i] as int in {9, 10, 11, 12, 13}
  }

  lemma {:induction false} LeftDropped(blank: Text, s: Text)
    requires Blank(blank)
    ensures TrimLeft(blank + s) == TrimLeft(s)
  {
    if blank == [] {
      assert blank + s == s;
    } else {
      assert (blank + s)[1..] == blank[1..] + s && (blank + s)[0] == blank[0];
      LeftDropped(blank[1..], s);
    }
  }

  lemma {:induction false} RightDropped(s: Text, blank: Text)
    requires Blank(blank)
    ensures TrimRight(s + blank) == TrimRight(s)
  {
    if blank == [] {
      assert s + blank == s;
    } else {
      var t, n := s + blank, |blank| - 1;
      assert t[..|t| - 1] == s + blank[..n] && t[|t| - 1] == blank[n];
      RightDropped(s, blank[..n]);
    }
  }

  /** Nothing shorter than the nineteen columns is a timestamp; those columns alone are one, in UTC. */
  lemma NineteenColumns(s: Text)
    requires s != [] && !IsSpace(s[0]) && !IsSpace(s[|s| - 1])
    ensures |s| < 19 ==> Parse(s) == None
    ensures |s| == 19 ==> Parse(s) == Fields(s)
  {
    hide Fields;
    assert TrimRight(s) == s && TrimLeft(s) == s;
  }

  /** White space around a text that has none at its ends does not matter. */
  lemma BlanksDropped(before: Text, s: Text, after: Text)
    requires Blank(before) && Blank(after) && s != [] && !IsSpace(s[0]) && !IsSpace(s[|s| - 1])
    ensures Parse(before + s + after) == Parse(s)
  {
    hide Fields, Offset, ZonePart;
    assert before + s + after == before + (s + after);
    LeftDropped(before, s + after);
    assert TrimLeft(s + after) == s + after;
    RightDropped(s, after);
    assert TrimRight(s) == s && TrimLeft(s) == s;
  }

  /** Text without a zone counts as UTC; a zone that is not Z takes six characters with its hours and minutes. */
  lemma OffsetExactly(zone: Text)
    requires zone == [] || IsZone(zone[0])
    ensures Offset(zone).Some? <==>
            zone == [] || zone[0] == 'Z' || (|zone| >= 6 && ParseInt(zone[1..3]).Some? && ParseInt(zone[4..6]).Some?)
    ensures zone == [] || zone[0] == 'Z' ==> Offset(zone) == Some(0)
    ensures Offset(zone).Some? && zone != [] && zone[0] != 'Z' ==>
              Offset(zone).value == (if zone[0] == '-' then -1 else 1)
                                    * (3600 * ParseInt(zone[1..3]).value + 60 * ParseInt(zone[4..6]).value)
  {
    hide ParseInt;
  }
}
