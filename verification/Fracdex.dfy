/** Fractional order keys: a key strictly between two others, and how long they last. */
module Fracdex {
  type Key = string

  datatype Error = OutOfOrder | TooDeep
  datatype Result = Ok(key: Key) | Err(error: Error)

  const BASE := 62
  const FIRST: Key := "V"

  /** The digit a character stands for, -1 for none: 0-9, A-Z, a-z. */
  function Idx(c: char): int {
    if '0' <= c <= '9' then c as int - '0' as int
    else if 'A' <= c <= 'Z' then c as int - 'A' as int + 10
    else if 'a' <= c <= 'z' then c as int - 'a' as int + 36
    else -1
  }

  function Digit(k: int): (c: char)
    requires 0 <= k < BASE
    ensures Idx(c) == k
  {
    if k < 10 then (k + 48) as char else if k < 36 then (k - 10 + 65) as char else (k - 36 + 97) as char
  }

  predicate IsKey(s: Key) {
    forall c <- s :: Idx(c) >= 0
  }

  /** Byte order. */
  predicate Less(a: Key, b: Key) {
    b != "" && (a == "" || a[0] < b[0] || (a[0] == b[0] && Less(a[1..], b[1..])))
  }

  // ----- The digit loop -----

  /** The digit of a at i, 0 behind its end. */
  function Low(a: Key, i: nat): int {
    if i < |a| then Idx(a[i]) else 0
  }

  /** The digit b allows at i: its own, 0 behind its end, or no bound once the prefix is below b. */
  function High(b: Key, i: nat, free: bool): int {
    if free then BASE else if i < |b| then Idx(b[i]) else 0
  }

  /** The digits chosen from position i on. */
  function Place(a: Key, b: Key, i: nat, free: bool, maxLen: nat): (r: Result)
    requires IsKey(a) && IsKey(b)
    decreases maxLen - i
  {
    if i >= maxLen then Err(TooDeep) else
    var low, high := Low(a, i), High(b, i, free);
    if low + 1 < high then Ok([Digit((low + high) / 2)]) else
    match Place(a, b, i + 1, free || low < high, maxLen)
    case Err(e) => Err(e)
    case Ok(t) => Ok([Digit(low)] + t)
  }

  function BetweenKeys(a: Key, b: Key, maxLen: nat): Result {
    if a != "" && b != "" && !Less(a, b) then Err(OutOfOrder)
    else if !IsKey(a) || !IsKey(b) then Err(OutOfOrder)
    else Place(a, b, 0, b == "", maxLen)
  }

  method Between(a: Key, b: Key, maxLen: nat) returns (r: Result)
    ensures r == BetweenKeys(a, b, maxLen)
  {
    hide Idx, Less, Digit, Place, Prepend;
    if a != "" && b != "" && !Less(a, b) {
      return Err(OutOfOrder);
    }
    var aDigits := AllDigits(a);
    if !aDigits {
      return Err(OutOfOrder);
    }
    var bDigits := AllDigits(b);
    if !bDigits {
      return Err(OutOfOrder);
    }
    var out: Key := "";
    var bFree := b == "";
    PrependNothing(Place(a, b, 0, bFree, maxLen));
    for i := 0 to maxLen
      invariant Place(a, b, 0, b == "", maxLen) == Prepend(out, Place(a, b, i, bFree, maxLen))
    {
      PlaceStep(out, a, b, i, bFree, maxLen);
      var da := 0;
      if i < |a| {
        da := Idx(a[i]);
      }
      var db := BASE;
      if !bFree {
        if i < |b| {
          db := Idx(b[i]);
        } else {
          db := 0;
        }
      }
      if da + 1 < db {
        out := out + [Digit((da + db) / 2)];
        return Ok(out);
      }
      out := out + [Digit(da)];
      if !bFree && da < db {
        bFree := true;
      }
    }
    NoPlaceLeft(out, a, b, bFree, maxLen);
    return Err(TooDeep);
  }

  /** One turn of the loop: either the last digit, or one that follows a. */
  lemma PlaceStep(out: Key, a: Key, b: Key, i: nat, free: bool, maxLen: nat)
    requires IsKey(a) && IsKey(b) && i < maxLen
    ensures var low, high := Low(a, i), High(b, i, free);
            && 0 <= low < BASE && high <= BASE
            && Prepend(out, Place(a, b, i, free, maxLen)) ==
               if low + 1 < high then Ok(out + [Digit((low + high) / 2)])
               else Prepend(out + [Digit(low)], Place(a, b, i + 1, free || low < high, maxLen))
  {
    hide Idx, Digit;
    var low, high := Low(a, i), High(b, i, free);
    if i < |a| {
      DigitOf(a, i);
    }
    if i < |b| {
      DigitOf(b, i);
    }
    if low + 1 >= high {
      PrependTwice(out, [Digit(low)], Place(a, b, i + 1, free || low < high, maxLen));
    }
  }

  lemma NoPlaceLeft(out: Key, a: Key, b: Key, free: bool, maxLen: nat)
    requires IsKey(a) && IsKey(b)
    ensures Prepend(out, Place(a, b, maxLen, free, maxLen)) == Err(TooDeep)
  {
  }

  lemma PrependNothing(r: Result)
    ensures Prepend("", r) == r
  {
    if r.Ok? {
      assert "" + r.key == r.key;
    }
  }

  function Prepend(head: Key, r: Result): Result {
    match r case Err(e) => Err(e) case Ok(t) => Ok(head + t)
  }

  lemma PrependTwice(x: Key, y: Key, r: Result)
    ensures Prepend(x, Prepend(y, r)) == Prepend(x + y, r)
  {
    if r.Ok? {
      assert x + (y + r.key) == x + y + r.key;
    }
  }

  lemma DigitOf(a: Key, i: nat)
    requires IsKey(a) && i < |a|
    ensures 0 <= Idx(a[i]) < BASE
  {
    assert a[i] in a;
  }

  method AllDigits(s: Key) returns (ok: bool)
    ensures ok == IsKey(s)
  {
    for i := 0 to |s|
      invariant forall j | 0 <= j < i :: Idx(s[j]) >= 0
    {
      if Idx(s[i]) < 0 {
        assert s[i] in s;
        return false;
      }
    }
    return true;
  }

  // ----- The order -----

  lemma {:induction false} LessTransitive(a: Key, b: Key, c: Key)
    requires Less(a, b) && Less(b, c)
    ensures Less(a, c)
  {
    if a != "" && a[0] == b[0] == c[0] {
      LessTransitive(a[1..], b[1..], c[1..]);
    }
  }

  lemma {:induction false} LessIrreflexive(a: Key)
    ensures !Less(a, a)
  {
    if a != "" {
      LessIrreflexive(a[1..]);
    }
  }

  lemma {:induction false} LessTotal(a: Key, b: Key)
    ensures Less(a, b) || a == b || Less(b, a)
  {
    if a != "" && b != "" && a[0] == b[0] {
      LessTotal(a[1..], b[1..]);
      assert a == [a[0]] + a[1..] && b == [b[0]] + b[1..];
    }
  }

  /** Digits and characters are ordered alike. */
  lemma IdxOrder(c: char, d: char)
    requires Idx(c) >= 0 && Idx(d) >= 0
    ensures c < d <==> Idx(c) < Idx(d)
    ensures c == d <==> Idx(c) == Idx(d)
  {
  }

  lemma ZeroIsFirst()
    ensures Idx('0') == 0
  {
  }

  // ----- Strictly between -----

  function From(s: Key, i: nat): Key {
    if i < |s| then s[i..] else ""
  }

  lemma FromStep(s: Key, i: nat)
    ensures i < |s| ==> From(s, i) != "" && From(s, i)[0] == s[i] && From(s, i)[1..] == From(s, i + 1)
    ensures i >= |s| ==> From(s, i) == From(s, i + 1) == ""
  {
  }

  /** Behind the end of b nothing fits. */
  lemma {:induction false} PastEnd(a: Key, b: Key, i: nat, maxLen: nat)
    requires IsKey(a) && IsKey(b) && i >= |b|
    ensures Place(a, b, i, false, maxLen) == Err(TooDeep)
    decreases maxLen - i
  {
    if i < maxLen {
      if i < |a| {
        DigitOf(a, i);
      }
      PastEnd(a, b, i + 1, maxLen);
    }
  }

  /** What the digits chosen from position i on must be. */
  predicate Fits(t: Key, a: Key, b: Key, i: nat, free: bool) {
    && Less(From(a, i), t) && (!free ==> Less(t, From(b, i)))
    && t != "" && t[|t| - 1] != '0' && IsKey(t)
  }

  lemma {:induction false} PlaceBetween(a: Key, b: Key, i: nat, free: bool, maxLen: nat)
    requires IsKey(a) && IsKey(b) && Place(a, b, i, free, maxLen).Ok?
    requires !free ==> From(a, i) == "" || Less(From(a, i), From(b, i))
    ensures var t := Place(a, b, i, free, maxLen).key;
            Fits(t, a, b, i, free) && |t| <= maxLen - i
    decreases maxLen - i
  {
    hide Idx, Digit, From, Fits, IsKey, Less;
    if !free && i >= |b| {
      PastEnd(a, b, i, maxLen);
    } else {
      var low, high := Low(a, i), High(b, i, free);
      if low + 1 < high {
        LastDigitFits(a, b, i, free);
      } else {
        SameDigit(a, b, i, free);
        PlaceBetween(a, b, i + 1, free || low < high, maxLen);
        DigitFits(a, b, i, free, Place(a, b, i + 1, free || low < high, maxLen).key);
      }
    }
  }

  lemma DigitBounds(a: Key, i: nat)
    requires IsKey(a)
    ensures 0 <= Low(a, i) < BASE
  {
    if i < |a| {
      DigitOf(a, i);
    }
  }

  /** With room between the digits, one digit is enough. */
  lemma LastDigitFits(a: Key, b: Key, i: nat, free: bool)
    requires IsKey(a) && IsKey(b) && (free || i < |b|) && Low(a, i) + 1 < High(b, i, free)
    ensures 0 <= (Low(a, i) + High(b, i, free)) / 2 < BASE
    ensures Fits([Digit((Low(a, i) + High(b, i, free)) / 2)], a, b, i, free)
  {
    hide Idx, Digit, From;
    ZeroIsFirst();
    FromStep(a, i);
    FromStep(b, i);
    DigitBounds(a, i);
    DigitBounds(b, i);
    var c := Digit((Low(a, i) + High(b, i, free)) / 2);
    IdxOrder(c, '0');
    IdxOrder(c, if i < |a| then a[i] else '0');
    IdxOrder(c, if i < |b| then b[i] else '0');
  }

  /** Without room the digit of a is copied, and b bounds the rest only if its digit is the same. */
  lemma SameDigit(a: Key, b: Key, i: nat, free: bool)
    requires IsKey(a) && IsKey(b) && (free || i < |b|) && Low(a, i) + 1 >= High(b, i, free)
    requires !free ==> From(a, i) == "" || Less(From(a, i), From(b, i))
    ensures free || Low(a, i) <= High(b, i, free)
    ensures !free && Low(a, i) == High(b, i, free) ==> From(a, i + 1) == "" || Less(From(a, i + 1), From(b, i + 1))
  {
    hide Idx, From;
    FromStep(a, i);
    FromStep(b, i);
    DigitBounds(a, i);
    DigitBounds(b, i);
    if !free && i < |a| {
      IdxOrder(a[i], b[i]);
    }
  }

  lemma DigitFits(a: Key, b: Key, i: nat, free: bool, t: Key)
    requires IsKey(a) && IsKey(b) && (free || i < |b|) && (free || Low(a, i) <= High(b, i, free))
    requires Fits(t, a, b, i + 1, free || Low(a, i) < High(b, i, free))
    ensures 0 <= Low(a, i) < BASE && Fits([Digit(Low(a, i))] + t, a, b, i, free)
  {
    hide Idx, Digit, From;
    ZeroIsFirst();
    FromStep(a, i);
    FromStep(b, i);
    DigitBounds(a, i);
    DigitBounds(b, i);
    var c := Digit(Low(a, i));
    IdxOrder(c, if i < |a| then a[i] else '0');
    IdxOrder(c, if i < |b| then b[i] else '0');
    assert ([c] + t)[1..] == t;
  }

  /** A key that Between returns lies strictly between its bounds and never ends in zero. */
  lemma StrictlyBetween(a: Key, b: Key, maxLen: nat)
    requires BetweenKeys(a, b, maxLen).Ok?
    ensures var k := BetweenKeys(a, b, maxLen).key;
            && Less(a, k) && (b != "" ==> Less(k, b))
            && IsKey(k) && k[|k| - 1] != '0' && |k| <= maxLen
  {
    assert From(a, 0) == a && From(b, 0) == b;
    PlaceBetween(a, b, 0, b == "", maxLen);
    assert Fits(BetweenKeys(a, b, maxLen).key, a, b, 0, b == "");
  }

  // ----- When a key fits -----

  /** b is a followed only by zeros, so nothing sorts between them. */
  predicate ZeroExtension(a: Key, b: Key) {
    b != "" && a <= b && forall i | |a| <= i < |b| :: b[i] == '0'
  }

  /** The first position from i on where a does not hold the last digit. */
  function RoomFrom(a: Key, i: nat): (j: nat)
    ensures i <= j && (j <= i || j <= |a|)
    decreases |a| - i
  {
    if i < |a| && a[i] == 'z' then RoomFrom(a, i + 1) else i
  }

  /** The first position from i on where b exceeds a, read as if a went on with zeros. */
  function Difference(a: Key, b: Key, i: nat): (j: nat)
    ensures i <= j && (i <= |b| ==> j <= |b|)
    decreases |b| - i
  {
    if i < |b| && Low(a, i) == Idx(b[i]) then Difference(a, b, i + 1) else i
  }

  /** The position of the last digit of the key between a and b. */
  function Gap(a: Key, b: Key): nat {
    if b == "" then RoomFrom(a, 0) else
    var j := Difference(a, b, 0);
    if j < |b| && Low(a, j) + 1 < Idx(b[j]) then j else RoomFrom(a, j + 1)
  }

  lemma {:induction false} PlaceFree(a: Key, b: Key, i: nat, maxLen: nat)
    requires IsKey(a) && IsKey(b)
    ensures var g := RoomFrom(a, i);
            if g < maxLen then
              && Place(a, b, i, true, maxLen).Ok? && |Place(a, b, i, true, maxLen).key| == g + 1 - i
            else Place(a, b, i, true, maxLen) == Err(TooDeep)
    decreases maxLen - i
  {
    if i < |a| {
      DigitOf(a, i);
      IdxOrder(a[i], 'z');
    }
    if i < maxLen && RoomFrom(a, i) != i {
      PlaceFree(a, b, i + 1, maxLen);
    }
  }

  /** a and b agree on positions [i, j) and b exceeds a at j. */
  lemma {:induction false} PlaceBound(a: Key, b: Key, i: nat, maxLen: nat)
    requires IsKey(a) && IsKey(b) && Difference(a, b, i) < |b|
    requires var j := Difference(a, b, i); Low(a, j) < Idx(b[j])
    ensures var j := Difference(a, b, i);
            var g := if Low(a, j) + 1 < Idx(b[j]) then j else RoomFrom(a, j + 1);
            if g < maxLen then
              && Place(a, b, i, false, maxLen).Ok? && |Place(a, b, i, false, maxLen).key| == g + 1 - i
            else Place(a, b, i, false, maxLen) == Err(TooDeep)
    decreases maxLen - i
  {
    hide Idx, Digit;
    var j := Difference(a, b, i);
    if i < |a| {
      DigitOf(a, i);
    }
    DigitOf(b, i);
    if i < maxLen {
      if j == i {
        PlaceFree(a, b, i + 1, maxLen);
      } else {
        PlaceBound(a, b, i + 1, maxLen);
      }
    }
  }

  /** Where the bounds first differ, b holds the larger digit. */
  lemma {:induction false} DifferenceOrder(a: Key, b: Key, i: nat)
    requires IsKey(a) && IsKey(b) && i <= |b| && (From(a, i) == "" || Less(From(a, i), From(b, i)))
    ensures var j := Difference(a, b, i); j < |b| ==> Low(a, j) < Idx(b[j])
    decreases |b| - i
  {
    FromStep(a, i);
    FromStep(b, i);
    if i < |b| {
      DigitOf(b, i);
      if i < |a| {
        IdxOrder(a[i], b[i]);
      }
      if Low(a, i) == Idx(b[i]) {
        DifferenceOrder(a, b, i + 1);
      }
    }
  }

  /** The bounds agree to the end of b exactly when b only adds zeros. */
  lemma {:induction false} NoDifference(a: Key, b: Key, i: nat)
    requires IsKey(a) && IsKey(b) && i <= |b|
    requires Less(a, b) || a == ""
    requires forall k | 0 <= k < i :: Low(a, k) == Idx(b[k])
    ensures Difference(a, b, i) == |b| <==> forall k | i <= k < |b| :: Low(a, k) == Idx(b[k])
    decreases |b| - i
  {
    if i < |b| && Low(a, i) == Idx(b[i]) {
      NoDifference(a, b, i + 1);
    }
  }

  lemma AgreementIsExtension(a: Key, b: Key)
    requires IsKey(a) && IsKey(b) && b != "" && (a == "" || Less(a, b))
    ensures ZeroExtension(a, b) <==> forall k | 0 <= k < |b| :: Low(a, k) == Idx(b[k])
  {
    hide Idx;
    forall k | 0 <= k < |b|
      ensures Low(a, k) == Idx(b[k]) <==> b[k] == if k < |a| then a[k] else '0'
    {
      DigitOf(b, k);
      ZeroDigit();
      IdxOrder(b[k], if k < |a| then a[k] else '0') by {
        if k < |a| {
          DigitOf(a, k);
        }
      }
    }
    if forall k | 0 <= k < |b| :: Low(a, k) == Idx(b[k]) {
      NotLonger(a, b);
    }
  }

  lemma ZeroDigit()
    ensures Idx('0') == 0
  {
  }

  /** A key that sorts first and agrees on all of b is no longer than b. */
  lemma {:induction false} NotLonger(a: Key, b: Key)
    requires Less(a, b) || a == ""
    requires forall k | 0 <= k < |b| && k < |a| :: b[k] == a[k]
    ensures |a| <= |b|
  {
    if a != "" && |a| > |b| {
      assert a[..|b|] == b;
      PrefixNotLess(a, b);
      LessIrreflexive(b);
      assert false;
    }
  }

  lemma {:induction false} PrefixNotLess(a: Key, b: Key)
    requires b <= a
    ensures !Less(a, b)
  {
    if b != "" {
      PrefixNotLess(a[1..], b[1..]);
    }
  }

  /**
   * Between succeeds exactly on ordered keys whose upper bound is more than the lower one with
   * zeros appended, and whose gap opens before the depth limit; the key ends at the gap.
   */
  lemma BetweenExactly(a: Key, b: Key, maxLen: nat)
    ensures BetweenKeys(a, b, maxLen).Ok? <==>
            && IsKey(a) && IsKey(b) && (a != "" && b != "" ==> Less(a, b))
            && !ZeroExtension(a, b) && Gap(a, b) < maxLen
    ensures BetweenKeys(a, b, maxLen).Ok? ==> |BetweenKeys(a, b, maxLen).key| == Gap(a, b) + 1
    ensures BetweenKeys(a, b, maxLen) == Err(OutOfOrder) <==>
            !IsKey(a) || !IsKey(b) || (a != "" && b != "" && !Less(a, b))
  {
    hide Idx, Place, Less;
    if IsKey(a) && IsKey(b) && (a != "" && b != "" ==> Less(a, b)) {
      if b == "" {
        PlaceFree(a, b, 0, maxLen);
      } else {
        assert From(a, 0) == a && From(b, 0) == b;
        NoDifference(a, b, 0);
        AgreementIsExtension(a, b);
        if ZeroExtension(a, b) {
          PlaceStuck(a, b, 0, maxLen);
        } else {
          DifferenceOrder(a, b, 0);
          PlaceBound(a, b, 0, maxLen);
        }
      }
    }
  }

  /** Between a key and the same key with zeros the loop only copies digits. */
  lemma {:induction false} PlaceStuck(a: Key, b: Key, i: nat, maxLen: nat)
    requires IsKey(a) && IsKey(b) && forall k | i <= k < |b| :: Low(a, k) == Idx(b[k])
    ensures Place(a, b, i, false, maxLen) == Err(TooDeep)
    decreases maxLen - i
  {
    hide Idx;
    if i >= |b| {
      PastEnd(a, b, i, maxLen);
    } else if i < maxLen {
      DigitOf(b, i);
      PlaceStuck(a, b, i + 1, maxLen);
    }
  }

  /** Keys below the depth limit that do not end in zero always have one between them, at most
      one digit longer than the longer bound. */
  lemma BetweenAlwaysFits(a: Key, b: Key, maxLen: nat)
    requires IsKey(a) && IsKey(b) && |a| < maxLen && |b| < maxLen
    requires a != "" && b != "" ==> Less(a, b)
    requires b != "" ==> b[|b| - 1] != '0'
    ensures BetweenKeys(a, b, maxLen).Ok?
    ensures |BetweenKeys(a, b, maxLen).key| <= 1 + if |a| < |b| then |b| else |a|
  {
    hide Less, Idx, BetweenKeys;
    BetweenExactly(a, b, maxLen);
    if a == b {
      LessIrreflexive(a);
    }
    assert !ZeroExtension(a, b);
    GapBound(a, b);
  }

  lemma GapBound(a: Key, b: Key)
    requires IsKey(a) && IsKey(b) && !ZeroExtension(a, b) && (a != "" && b != "" ==> Less(a, b))
    ensures Gap(a, b) <= if |a| < |b| then |b| else |a|
  {
    hide Idx;
    if b != "" {
      assert From(a, 0) == a && From(b, 0) == b;
      NoDifference(a, b, 0);
      AgreementIsExtension(a, b);
    }
  }

  // ----- The digits of the key -----

  /** What b, read as if it went on with zeros, still bounds at position j: nothing once it exceeded a before. */
  predicate Below(a: Key, b: Key, i: nat, j: nat) {
    exists k | i <= k < j :: Low(a, k) < Low(b, k)
  }

  lemma {:induction false} PlaceDigits(a: Key, b: Key, i: nat, free: bool, maxLen: nat)
    requires IsKey(a) && IsKey(b) && Place(a, b, i, free, maxLen).Ok?
    ensures var t := Place(a, b, i, free, maxLen).key;
            && t != "" && (forall j | 0 <= j < |t| - 1 :: Idx(t[j]) == Low(a, i + j))
            && var g := |t| - 1;
               Idx(t[g]) == (Low(a, i + g) + if free || Below(a, b, i, i + g) then 62 else Low(b, i + g)) / 2
    decreases maxLen - i
  {
    hide Idx, Digit, IsKey;
    var low, high := Low(a, i), High(b, i, free);
    DigitBounds(a, i);
    DigitBounds(b, i);
    var t := Place(a, b, i, free, maxLen).key;
    if low + 1 >= high {
      PlaceDigits(a, b, i + 1, free || low < high, maxLen);
      var rest := Place(a, b, i + 1, free || low < high, maxLen).key;
      assert t == [Digit(low)] + rest;
      var g := |t| - 1;
      assert Below(a, b, i, i + g) <==> low < Low(b, i) || Below(a, b, i + 1, i + g);
    }
  }

  /**
   * The key copies the lower bound, filled up with zeros, and ends with the digit halfway to the upper one:
   * halfway to 62 behind the first position where the upper bound exceeds the lower.
   */
  lemma BetweenDigits(a: Key, b: Key, maxLen: nat)
    requires BetweenKeys(a, b, maxLen).Ok?
    ensures var k, g := BetweenKeys(a, b, maxLen).key, Gap(a, b);
            && |k| == g + 1
            && (forall j | 0 <= j < g :: k[j] == if j < |a| then a[j] else '0')
            && Idx(k[g]) == (Low(a, g) + if b == "" || Below(a, b, 0, g) then 62 else Low(b, g)) / 2
  {
    hide Idx, Digit, IsKey, Less, Place, Gap;
    BetweenExactly(a, b, maxLen);
    PlaceDigits(a, b, 0, b == "", maxLen);
    StrictlyBetween(a, b, maxLen);
    var k := BetweenKeys(a, b, maxLen).key;
    forall j | 0 <= j < |k| - 1 ensures k[j] == if j < |a| then a[j] else '0' {
      DigitOf(k, j);
      ZeroIsFirst();
      DigitBounds(a, j);
      IdxOrder(k[j], if j < |a| then a[j] else '0');
    }
  }

  // ----- Append-only lists -----

  /** The last digits of six consecutive appended keys. */
  function CycleDigit(r: nat): char
    requires r < 6
  {
    if r == 0 then 'V' else if r == 1 then 'k' else if r == 2 then 's'
    else if r == 3 then 'w' else if r == 4 then 'y' else 'z'
  }

  function Zs(n: nat): (s: Key)
    ensures |s| == n && forall i | 0 <= i < n :: s[i] == 'z'
  {
    seq(n, i => 'z')
  }

  /** The key of the n-th item of a list that only ever grew at its end. */
  function AppendedKey(n: nat): Key {
    Zs(n / 6) + [CycleDigit(n % 6)]
  }

  lemma AppendedIsKey(n: nat)
    ensures IsKey(AppendedKey(n))
  {
    forall c <- AppendedKey(n)
      ensures Idx(c) >= 0
    {
      var i :| 0 <= i < |AppendedKey(n)| && AppendedKey(n)[i] == c;
      assert i < n / 6 ==> c == Zs(n / 6)[i];
    }
  }

  /** a holds the last digit at all positions of [i, k). */
  predicate HoldsZs(a: Key, i: nat, k: nat) {
    i <= k && (i < k ==> k <= |a|) && forall j | i <= j < k && j < |a| :: a[j] == 'z'
  }

  lemma HoldsRest(a: Key, i: nat, k: nat)
    requires HoldsZs(a, i, k) && i < k
    ensures i < |a| && a[i] == 'z' && HoldsZs(a, i + 1, k)
  {
  }

  /** Copying the leading digits z of the last key. */
  lemma {:induction false} PlaceThroughZs(a: Key, i: nat, k: nat, maxLen: nat)
    requires IsKey(a) && HoldsZs(a, i, k)
    ensures Place(a, "", i, true, maxLen) ==
            if k <= maxLen || i >= maxLen then Prepend(Zs(k - i), Place(a, "", k, true, maxLen)) else Err(TooDeep)
    decreases k - i
  {
    if i < k && i < maxLen {
      HoldsRest(a, i, k);
      DigitOf(a, i);
      IdxOrder('z', Digit(61));
      PlaceThroughZs(a, i + 1, k, maxLen);
      PrependTwice(['z'], Zs(k - i - 1), Place(a, "", k, true, maxLen));
      assert ['z'] + Zs(k - i - 1) == Zs(k - i);
    } else if i == k && Place(a, "", i, true, maxLen).Ok? {
      assert Zs(0) + Place(a, "", i, true, maxLen).key == Place(a, "", i, true, maxLen).key;
    }
  }

  /** The upper half of what is left above a digit. */
  lemma CycleStep(r: nat)
    requires r < 6
    ensures r < 5 ==> Idx(CycleDigit(r)) + 1 < BASE && Digit((Idx(CycleDigit(r)) + BASE) / 2) == CycleDigit(r + 1)
    ensures Idx('z') + 1 == BASE && CycleDigit(5) == 'z' && Digit((0 + BASE) / 2) == 'V' == CycleDigit(0)
  {
  }

  /** Appending behind the n-th key gives the next one while it fits, and fails otherwise. */
  lemma AppendNext(n: nat, maxLen: nat)
    ensures BetweenKeys(AppendedKey(n), "", maxLen) ==
            if (n + 1) / 6 < maxLen then Ok(AppendedKey(n + 1)) else Err(TooDeep)
  {
    hide Idx, Digit, CycleDigit;
    var a, q, r := AppendedKey(n), n / 6, n % 6;
    AppendedIsKey(n);
    CycleStep(r);
    assert forall j | 0 <= j < q :: a[j] == Zs(q)[j] == 'z';
    assert a[q] == CycleDigit(r);
    if r < 5 {
      assert (n + 1) / 6 == q && (n + 1) % 6 == r + 1;
      PlaceThroughZs(a, 0, q, maxLen);
    } else {
      assert (n + 1) / 6 == q + 1 && (n + 1) % 6 == 0;
      PlaceThroughZs(a, 0, q + 1, maxLen);
    }
  }
}
