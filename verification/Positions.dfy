/**
 * The positions of issues: each milestone, and the issues without one, form a list ordered by fractional
 * keys. Issues are appended, moved next to others, and carried from list to list with their keys.
 */
module Positions {
  import opened Fracdex

  type Id = nat

  datatype Option<+T> = None | Some(value: T)
  datatype List = Unfiled | Milestone(number: nat)
  datatype Issue = Issue(list: List, position: Key)
  type Table = map<Id, Issue>

  datatype Reason = NotFound | NoKey(error: Error)
  datatype Outcome = Committed(table: Table) | Refused(reason: Reason)

  /** A key this package hands out. */
  predicate Good(k: Key) {
    k != "" && IsKey(k) && k[|k| - 1] != '0'
  }

  predicate Before(a: Key, b: Key) {
    a == b || Less(a, b)
  }

  // ----- Appending -----

  /** The position a descending query of the list returns first. */
  predicate Greatest(t: Table, list: List, k: Key) {
    && (exists i <- t :: t[i] == Issue(list, k))
    && (forall i <- t :: t[i].list == list ==> Before(t[i].position, k))
  }

  lemma {:induction false} GreatestOf(t: Table, list: List, ids: set<Id>) returns (k: Key)
    requires ids != {} && ids <= t.Keys && forall i <- ids :: t[i].list == list
    ensures exists i <- ids :: t[i].position == k
    ensures forall i <- ids :: Before(t[i].position, k)
    decreases ids
  {
    hide Less;
    var i :| i in ids;
    k := t[i].position;
    if ids != {i} {
      var other := GreatestOf(t, list, ids - {i});
      LessTotal(k, other);
      if Less(k, other) {
        k := other;
      } else {
        forall j <- ids ensures Before(t[j].position, k) {
          if j != i && t[j].position != other && other != k {
            LessTransitive(t[j].position, other, k);
          }
        }
      }
    }
  }

  lemma GreatestExists(t: Table, list: List)
    requires exists i <- t :: t[i].list == list
    ensures exists k :: Greatest(t, list, k)
  {
    hide Less;
    var i :| i in t && t[i].list == list;
    var ids := set j | j in t && t[j].list == list;
    assert i in ids;
    var k := GreatestOf(t, list, ids);
    assert Greatest(t, list, k);
  }

  /** A list has one greatest position, however many issues hold it. */
  lemma GreatestIsOne(t: Table, list: List, j: Key, k: Key)
    requires Greatest(t, list, j) && Greatest(t, list, k)
    ensures j == k
  {
    hide Less;
    if j != k {
      LessTransitive(j, k, j);
      LessIrreflexive(j);
    }
  }

  ghost function NextPosition(t: Table, list: List, maxLen: nat): Result {
    if !exists i <- t :: t[i].list == list then Ok(FIRST)
    else
      GreatestExists(t, list);
      var last :| Greatest(t, list, last);
      BetweenKeys(last, "", maxLen)
  }

  ghost function Created(t: Table, id: Id, list: List, maxLen: nat): Outcome {
    match NextPosition(t, list, maxLen)
    case Err(e) => Refused(NoKey(e))
    case Ok(k) => Committed(t[id := Issue(list, k)])
  }

  // ----- Moving -----

  /** The position of a named neighbour, which must be in the list; no neighbour is no bound. */
  function Neighbour(t: Table, list: List, id: Option<Id>): Option<Key> {
    match id
    case None => Some("")
    case Some(i) => if i in t && t[i].list == list then Some(t[i].position) else None
  }

  datatype Placement = Placed(key: Key) | Unplaced(reason: Reason)

  function Reposition(t: Table, list: List, after: Option<Id>, before: Option<Id>, maxLen: nat): Placement {
    match (Neighbour(t, list, after), Neighbour(t, list, before))
    case (Some(lo), Some(hi)) =>
      (match BetweenKeys(lo, hi, maxLen) case Err(e) => Unplaced(NoKey(e)) case Ok(k) => Placed(k))
    case _ => Unplaced(NotFound)
  }

  predicate IsMove(after: Option<Id>, before: Option<Id>) {
    after.Some? || before.Some?
  }

  /** One change: next to the named neighbours, else at the end of a new list, else in place. */
  ghost function Updated(t: Table, id: Id, list: List, after: Option<Id>, before: Option<Id>, maxLen: nat): Outcome {
    if id !in t then Refused(NotFound)
    else if IsMove(after, before) then
      match Reposition(t, list, after, before, maxLen)
      case Unplaced(r) => Refused(r)
      case Placed(k) => Committed(t[id := Issue(list, k)])
    else if list != t[id].list then Created(t, id, list, maxLen)
    else Committed(t)
  }

  /** Unfinished issues of a sprint, and those of a deleted milestone, change lists with their keys. */
  function Carried(t: Table, ids: set<Id>, to: List): Table {
    map i <- t :: if i in ids then t[i].(list := to) else t[i]
  }

  /** No issue of the list comes after this one. */
  predicate IsLast(t: Table, list: List, i: Id) {
    i in t && t[i].list == list && forall j <- t :: t[j].list == list ==> Before(t[j].position, t[i].position)
  }

  lemma LastExists(t: Table, list: List)
    requires exists i <- t :: t[i].list == list
    ensures exists i <- t :: IsLast(t, list, i)
    ensures forall i :: IsLast(t, list, i) ==> Greatest(t, list, t[i].position)
  {
    hide Before;
    GreatestExists(t, list);
    var k :| Greatest(t, list, k);
    var i :| i in t && t[i] == Issue(list, k);
    assert IsLast(t, list, i);
    forall i | IsLast(t, list, i) ensures Greatest(t, list, t[i].position) {
      assert t[i] == Issue(list, t[i].position);
    }
  }

  function Unfinished(t: Table, unfinished: set<Id>, from: List): set<Id> {
    set i | i in t && t[i].list == from && i in unfinished
  }

  // ----- The store -----

  class Store {
    var issues: Table
    const maxLen: nat

    constructor (maxLen: nat)
      ensures issues == map[] && this.maxLen == maxLen
    {
      issues := map[];
      this.maxLen := maxLen;
    }

    method NextIssuePosition(list: List) returns (r: Result)
      ensures r == NextPosition(issues, list, maxLen)
    {
      if !exists i <- issues :: issues[i].list == list {
        return Ok(FIRST);
      }
      hide Before, BetweenKeys;
      LastExists(issues, list);
      var last :| last in issues && IsLast(issues, list, last);
      OnlyGreatest(issues, list, issues[last].position);
      r := Between(issues[last].position, "", maxLen);
    }

    method RepositionIssue(list: List, after: Option<Id>, before: Option<Id>) returns (r: Placement)
      ensures r == Reposition(issues, list, after, before, maxLen)
    {
      var lo, hi := Neighbour(issues, list, after), Neighbour(issues, list, before);
      if lo.None? || hi.None? {
        return Unplaced(NotFound);
      }
      var k := Between(lo.value, hi.value, maxLen);
      match k
      case Err(e) => return Unplaced(NoKey(e));
      case Ok(key) => return Placed(key);
    }

    method CreateIssue(id: Id, list: List) returns (ok: bool)
      modifies this
      ensures match Created(old(issues), id, list, maxLen)
              case Committed(t) => ok && issues == t
              case Refused(_) => !ok && issues == old(issues)
    {
      var position := NextIssuePosition(list);
      match position
      case Err(_) => return false;
      case Ok(k) =>
        issues := issues[id := Issue(list, k)];
        return true;
    }

    method UpdateIssue(id: Id, list: List, after: Option<Id>, before: Option<Id>) returns (ok: bool)
      modifies this
      ensures match Updated(old(issues), id, list, after, before, maxLen)
              case Committed(t) => ok && issues == t
              case Refused(_) => !ok && issues == old(issues)
    {
      if id !in issues {
        return false;
      }
      var position := issues[id].position;
      if after.Some? || before.Some? {
        var placed := RepositionIssue(list, after, before);
        if placed.Unplaced? {
          return false;
        }
        position := placed.key;
      } else if list != issues[id].list {
        var next := NextIssuePosition(list);
        if next.Err? {
          return false;
        }
        position := next.key;
      }
      assert issues[id].list == list && position == issues[id].position ==>
        issues[id := Issue(list, position)] == issues;
      issues := issues[id := Issue(list, position)];
      return true;
    }

    /** The unfinished issues of a list go to another with the positions they have. */
    method CarryIssues(unfinished: set<Id>, from: List, to: List)
      modifies this
      ensures issues == Carried(old(issues), Unfinished(old(issues), unfinished, from), to)
    {
      issues := map i <- issues ::
          if issues[i].list == from && i in unfinished then issues[i].(list := to) else issues[i];
    }
  }

  lemma OnlyGreatest(t: Table, list: List, k: Key)
    requires Greatest(t, list, k)
    ensures forall j :: Greatest(t, list, j) ==> j == k
  {
    forall j | Greatest(t, list, j) ensures j == k {
      GreatestIsOne(t, list, j, k);
    }
  }

  // ----- Order -----

  /** Each list is in strict order: no two of its issues share a position. */
  ghost predicate Ordered(t: Table) {
    forall i, j :: i in t && j in t && i != j && t[i].list == t[j].list ==> t[i].position != t[j].position
  }

  predicate GoodKeys(t: Table) {
    forall i <- t :: Good(t[i].position)
  }

  predicate NoLonger(t: Table, n: nat) {
    forall i <- t :: |t[i].position| <= n
  }

  /** Strictly between two positions; no bound is the end of the list. */
  predicate Inside(lo: Key, p: Key, hi: Key) {
    Less(lo, p) && (hi == "" || Less(p, hi))
  }

  /** Nothing but the issue that moves lies between the named neighbours. */
  predicate Clear(t: Table, id: Id, list: List, after: Option<Id>, before: Option<Id>) {
    var lo, hi := Neighbour(t, list, after), Neighbour(t, list, before);
    lo.Some? && hi.Some? ==>
      forall j <- t :: j != id && t[j].list == list ==> !Inside(lo.value, t[j].position, hi.value)
  }

  /** A move puts the issue between its neighbours, changes nothing else, and its key is one digit longer at most. */
  lemma MoveIsBetween(t: Table, id: Id, list: List, after: Option<Id>, before: Option<Id>, maxLen: nat)
    requires IsMove(after, before) && Updated(t, id, list, after, before, maxLen).Committed?
    ensures var lo, hi := Neighbour(t, list, after), Neighbour(t, list, before);
            && lo.Some? && hi.Some?
            && var k := Updated(t, id, list, after, before, maxLen).table[id].position;
               && Updated(t, id, list, after, before, maxLen).table == t[id := Issue(list, k)]
               && BetweenKeys(lo.value, hi.value, maxLen) == Ok(k) && Good(k) && Inside(lo.value, k, hi.value)
               && |k| <= 1 + if |lo.value| < |hi.value| then |hi.value| else |lo.value|
  {
    hide BetweenKeys, Less, IsKey, Gap, ZeroExtension;
    var lo, hi := Neighbour(t, list, after).value, Neighbour(t, list, before).value;
    StrictlyBetween(lo, hi, maxLen);
    BetweenExactly(lo, hi, maxLen);
    GapBound(lo, hi);
  }

  /** A move into a clear place keeps every list in strict order. */
  lemma ClearMoveKeepsOrder(t: Table, id: Id, list: List, after: Option<Id>, before: Option<Id>, maxLen: nat)
    requires Ordered(t) && IsMove(after, before) && Clear(t, id, list, after, before)
    requires Updated(t, id, list, after, before, maxLen).Committed?
    ensures Ordered(Updated(t, id, list, after, before, maxLen).table)
  {
    hide Updated, Inside, Neighbour;
    MoveIsBetween(t, id, list, after, before, maxLen);
  }

  /** A move keeps the order exactly when no other issue of the list has the key that lies between the neighbours. */
  lemma MoveKeepsOrderExactly(t: Table, id: Id, list: List, after: Option<Id>, before: Option<Id>, maxLen: nat)
    requires Ordered(t) && IsMove(after, before) && Updated(t, id, list, after, before, maxLen).Committed?
    ensures Ordered(Updated(t, id, list, after, before, maxLen).table) <==>
            forall j <- t :: j != id && t[j].list == list ==>
              Placed(t[j].position) != Reposition(t, list, after, before, maxLen)
  {
    hide Reposition;
    var k := Reposition(t, list, after, before, maxLen).key;
    var u := Updated(t, id, list, after, before, maxLen).table;
    assert u == t[id := Issue(list, k)];
    assert forall j <- t :: j != id ==> u[j] == t[j];
    if j :| j in t && j != id && t[j].list == list && t[j].position == k {
      assert u[j].position == u[id].position && u[j].list == u[id].list;
    }
  }

  /** Neighbours at the given positions, one other issue exactly between them, and one in another list. */
  function Occupied(a: Key, b: Key, k: Key): Table {
    var base := map[2 := Issue(Milestone(0), k), 3 := Issue(Unfiled, FIRST)];
    var low := if a == "" then base else base[0 := Issue(Milestone(0), a)];
    if b == "" then low else low[1 := Issue(Milestone(0), b)]
  }

  /**
   * No weaker condition on what lies between the neighbours will do: whatever their positions, there is an
   * ordered table with one issue between them whose position the move takes.
   */
  lemma ClearIsNeeded(a: Key, b: Key, maxLen: nat)
    requires (a == "" || Good(a)) && (b == "" || Good(b)) && (a != "" || b != "") && BetweenKeys(a, b, maxLen).Ok?
    ensures var k := BetweenKeys(a, b, maxLen).key;
            var t := Occupied(a, b, k);
            var after, before := if a == "" then None else Some(0), if b == "" then None else Some(1);
            && Ordered(t) && GoodKeys(t) && !Clear(t, 3, Milestone(0), after, before)
            && Updated(t, 3, Milestone(0), after, before, maxLen) == Committed(t[3 := Issue(Milestone(0), k)])
            && !Ordered(t[3 := Issue(Milestone(0), k)])
  {
    hide BetweenKeys, Less, Good, Occupied;
    var k := BetweenKeys(a, b, maxLen).key;
    var t := Occupied(a, b, k);
    StrictlyBetween(a, b, maxLen);
    BetweenOrder(a, b, k, maxLen);
    FirstIsGood();
    OccupiedIs(a, b, k);
    assert Inside(a, k, b);
    var u := t[3 := Issue(Milestone(0), k)];
    assert u[2] == u[3];
  }

  lemma OccupiedIs(a: Key, b: Key, k: Key)
    requires (a == "" || Good(a)) && (b == "" || Good(b)) && Good(k) && a != k && k != b && (b != "" ==> a != b)
             && Good(FIRST)
    ensures var t := Occupied(a, b, k);
            && Ordered(t) && GoodKeys(t) && 3 in t && 2 in t && t[2] == Issue(Milestone(0), k)
            && (a != "" ==> 0 in t && t[0] == Issue(Milestone(0), a))
            && (b != "" ==> 1 in t && t[1] == Issue(Milestone(0), b))
  {
    hide Good, Ordered;
    var base := map[2 := Issue(Milestone(0), k), 3 := Issue(Unfiled, FIRST)];
    var low := if a == "" then base else base[0 := Issue(Milestone(0), a)];
    assert Ordered(base) by { TwoLists(base, k); }
    OrderedAdd(base, 0, Issue(Milestone(0), a));
    OrderedAdd(low, 1, Issue(Milestone(0), b));
  }

  lemma TwoLists(t: Table, k: Key)
    requires t == map[2 := Issue(Milestone(0), k), 3 := Issue(Unfiled, FIRST)]
    ensures Ordered(t)
  {
  }

  lemma OrderedAdd(t: Table, id: Id, issue: Issue)
    requires Ordered(t) && id !in t
    ensures (forall i <- t :: t[i] != issue) ==> Ordered(t[id := issue])
  {
  }

  lemma FirstIsGood()
    ensures Good(FIRST)
  {
  }

  lemma BetweenOrder(a: Key, b: Key, k: Key, maxLen: nat)
    requires BetweenKeys(a, b, maxLen) == Ok(k)
    ensures a != k && k != b && (b != "" ==> a != b) && Good(k)
  {
    hide BetweenKeys;
    StrictlyBetween(a, b, maxLen);
    LessIrreflexive(k);
    LessIrreflexive(a);
    if b != "" {
      LessTransitive(a, k, b);
    }
    assert Less(a, k) ==> k != "";
  }

  /** Two issues that share a position cannot be told apart by a move again: nothing goes between them. */
  lemma NothingBetweenEquals(t: Table, id: Id, list: List, i: Id, j: Id, maxLen: nat)
    requires GoodKeys(t) && id in t && i in t && j in t && t[i].list == t[j].list == list
             && t[i].position == t[j].position
    ensures Updated(t, id, list, Some(i), Some(j), maxLen) == Refused(NoKey(OutOfOrder))
  {
    LessIrreflexive(t[i].position);
  }

  /** An appended issue comes after every other of its list. */
  lemma NextIsLast(t: Table, list: List, maxLen: nat)
    requires GoodKeys(t) && NextPosition(t, list, maxLen).Ok?
    ensures Good(NextPosition(t, list, maxLen).key)
    ensures forall i <- t :: t[i].list == list ==> Less(t[i].position, NextPosition(t, list, maxLen).key)
  {
    hide BetweenKeys, Less, IsKey;
    FirstIsGood();
    if exists i <- t :: t[i].list == list {
      GreatestExists(t, list);
      var last :| Greatest(t, list, last) && NextPosition(t, list, maxLen) == BetweenKeys(last, "", maxLen);
      StrictlyBetween(last, "", maxLen);
      BetweenOrder(last, "", BetweenKeys(last, "", maxLen).key, maxLen);
      forall i <- t | t[i].list == list ensures Less(t[i].position, NextPosition(t, list, maxLen).key) {
        if t[i].position != last {
          LessTransitive(t[i].position, last, NextPosition(t, list, maxLen).key);
        }
      }
    }
  }

  /** Appending, also by a change of list, always keeps the order. */
  lemma AppendKeepsOrder(t: Table, id: Id, list: List, maxLen: nat)
    requires Ordered(t) && GoodKeys(t) && (id in t ==> t[id].list != list) && Created(t, id, list, maxLen).Committed?
    ensures Ordered(Created(t, id, list, maxLen).table)
  {
    hide NextPosition, Less, Good;
    NextIsLast(t, list, maxLen);
    var k := NextPosition(t, list, maxLen).key;
    LessIrreflexive(k);
    assert Created(t, id, list, maxLen).table == t[id := Issue(list, k)];
  }

  /** Carrying issues over keeps the order exactly when none of their keys is taken where they go. */
  lemma CarryKeepsOrderExactly(t: Table, ids: set<Id>, from: List, to: List)
    requires Ordered(t) && ids <= t.Keys && forall i <- ids :: t[i].list == from
    ensures Ordered(Carried(t, ids, to)) <==>
            forall i, j :: i in ids && j in t && j !in ids && t[j].list == to ==> t[i].position != t[j].position
  {
    var u := Carried(t, ids, to);
    if i, j :| i in ids && j in t && j !in ids && t[j].list == to && t[i].position == t[j].position {
      assert u[i] == u[j] && i != j;
    }
  }

  // ----- Lists that only grew at the end -----

  function Grown(list: List, n: nat): Table {
    map i | 0 <= i < n :: Issue(list, AppendedKey(i))
  }

  lemma AppendedOrder(i: nat, maxLen: nat)
    requires (i + 1) / 6 < maxLen
    ensures Less(AppendedKey(i), AppendedKey(i + 1))
  {
    AppendNext(i, maxLen);
    StrictlyBetween(AppendedKey(i), "", maxLen);
  }

  lemma {:induction false} AppendedOrders(i: nat, j: nat)
    requires i < j
    ensures Less(AppendedKey(i), AppendedKey(j))
    decreases j
  {
    hide AppendedKey, Less;
    AppendedOrder(j - 1, j + 1);
    if i < j - 1 {
      AppendedOrders(i, j - 1);
      LessTransitive(AppendedKey(i), AppendedKey(j - 1), AppendedKey(j));
    }
  }

  lemma FirstKey()
    ensures AppendedKey(0) == FIRST
  {
  }

  lemma GrownGreatest(list: List, n: nat)
    requires n > 0
    ensures forall k :: Greatest(Grown(list, n), list, k) <==> k == AppendedKey(n - 1)
  {
    hide AppendedKey, Less;
    var t := Grown(list, n);
    forall i <- t ensures Before(t[i].position, AppendedKey(n - 1)) {
      if i < n - 1 {
        AppendedOrders(i, n - 1);
      }
    }
    assert t[n - 1] == Issue(list, AppendedKey(n - 1));
    assert Greatest(t, list, AppendedKey(n - 1));
    OnlyGreatest(t, list, AppendedKey(n - 1));
  }

  /**
   * A list that only grows at its end takes exactly 6 * maxLen issues (384 for the limit of 64): while
   * fewer are there the next one gets the next key, and then it fails.
   */
  lemma AppendCapacity(list: List, n: nat, maxLen: nat)
    requires maxLen > 0
    ensures Created(Grown(list, n), n, list, maxLen) ==
            if n < 6 * maxLen then Committed(Grown(list, n + 1)) else Refused(NoKey(TooDeep))
    ensures Ordered(Grown(list, n))
  {
    hide BetweenKeys, AppendedKey, Less, Greatest;
    var t := Grown(list, n);
    forall i, j | 0 <= i < j < n ensures AppendedKey(i) != AppendedKey(j) {
      AppendedOrders(i, j);
      LessIrreflexive(AppendedKey(i));
    }
    assert Grown(list, n + 1) == t[n := Issue(list, AppendedKey(n))];
    if n == 0 {
      FirstKey();
    } else {
      GrownGreatest(list, n);
      assert t[0].list == list;
      AppendNext(n - 1, maxLen);
      assert n / 6 < maxLen <==> n < 6 * maxLen;
    }
  }

  /**
   * Naming only the issue to follow does not look at the one behind it: in a list that only grew at its end
   * such a move takes exactly the position of the next issue, whichever issue it moves.
   */
  lemma AfterOnlyCollides(list: List, n: nat, i: nat, id: Id, maxLen: nat)
    requires i + 1 < n <= 6 * maxLen && id < n
    ensures Updated(Grown(list, n), id, list, Some(i), None, maxLen) ==
            Committed(Grown(list, n)[id := Issue(list, AppendedKey(i + 1))])
    ensures id != i + 1 ==> !Ordered(Grown(list, n)[id := Issue(list, AppendedKey(i + 1))])
  {
    hide BetweenKeys, AppendedKey;
    var t := Grown(list, n);
    AppendNext(i, maxLen);
    assert (i + 1) / 6 < maxLen;
    var u := t[id := Issue(list, AppendedKey(i + 1))];
    assert t[i] == Issue(list, AppendedKey(i));
    if id != i + 1 {
      assert u[id] == u[i + 1];
    }
  }

  /** Naming only the issue to precede, other than the first, goes before the whole list instead. */
  lemma BeforeOnlyGoesFirst(list: List, n: nat, i: nat, id: Id, maxLen: nat)
    requires 0 < i < n && id < n && maxLen > 0
    ensures var o := Updated(Grown(list, n), id, list, None, Some(i), maxLen);
            o.Committed? && forall j | 0 <= j < n && j != id :: Less(o.table[id].position, o.table[j].position)
  {
    hide BetweenKeys, AppendedKey, Less;
    var t := Grown(list, n);
    BelowFirst(i, maxLen);
    var k := BetweenKeys("", AppendedKey(i), maxLen).key;
    assert t[i] == Issue(list, AppendedKey(i));
    assert Updated(t, id, list, None, Some(i), maxLen) == Committed(t[id := Issue(list, k)]);
    forall j | 0 <= j < n && j != id ensures Less(k, AppendedKey(j)) {
      if j > 0 {
        AppendedOrders(0, j);
        LessTransitive(k, AppendedKey(0), AppendedKey(j));
      }
    }
  }

  lemma BelowFirst(i: nat, maxLen: nat)
    requires maxLen > 0 && i > 0
    ensures var r := BetweenKeys("", AppendedKey(i), maxLen); r.Ok? && Less(r.key, AppendedKey(0))
  {
    hide AppendedKey;
    var b := AppendedKey(i);
    AppendedIsKey(i);
    HeadOfAppended(i);
    FirstKey();
    assert High(b, 0, false) == Idx(b[0]);
  }

  lemma HeadOfAppended(i: nat)
    requires i > 0
    ensures var b := AppendedKey(i); b != "" && 31 < Idx(b[0]) <= 61
  {
    var b := AppendedKey(i);
    if i / 6 > 0 {
      assert b[0] == Zs(i / 6)[0];
    } else {
      assert b[0] == CycleDigit(i % 6);
    }
  }

  /** Lists that only grew share their first positions, so carrying an issue into another such list collides. */
  lemma CarryCollides(from: List, to: List, n: nat, m: nat, ids: set<Id>)
    requires from != to && (forall i <- ids :: i < n) && exists i <- ids :: i < m
    ensures !Ordered(Carried(TwoGrown(from, to, n, m), ids, to))
  {
    hide AppendedKey;
    var i :| i in ids && i < m;
    var u := Carried(TwoGrown(from, to, n, m), ids, to);
    assert u[i] == Issue(to, AppendedKey(i)) == u[n + i];
  }

  /** Two lists of n and of m issues that only grew. */
  function TwoGrown(from: List, to: List, n: nat, m: nat): Table {
    map i: Id | 0 <= i < n + m :: if i < n then Issue(from, AppendedKey(i)) else Issue(to, AppendedKey(i - n))
  }

  // ----- Runs -----

  datatype Edit =
    | Create(id: Id, list: List)
    | Update(id: Id, list: List, after: Option<Id>, before: Option<Id>)
    | Carry(ids: set<Id>, from: List, to: List)

  /** New issues have new ids, and issues are carried out of one list. */
  predicate Possible(t: Table, e: Edit) {
    match e
    case Create(id, _) => id !in t
    case Carry(ids, from, _) => ids <= t.Keys && forall i <- ids :: t[i].list == from
    case _ => true
  }

  ghost function Result(t: Table, e: Edit, maxLen: nat): Outcome {
    match e
    case Create(id, list) => Created(t, id, list, maxLen)
    case Update(id, list, after, before) => Updated(t, id, list, after, before, maxLen)
    case Carry(ids, _, to) => Committed(Carried(t, ids, to))
  }

  ghost function Next(t: Table, e: Edit, maxLen: nat): Table {
    match Result(t, e, maxLen)
    case Committed(u) => u
    case Refused(_) => t
  }

  /** What a caller can check first: a move goes into a clear place, and no carried key is taken where it goes. */
  predicate Careful(t: Table, e: Edit) {
    match e
    case Create(_, _) => true
    case Update(id, list, after, before) => IsMove(after, before) ==> Clear(t, id, list, after, before)
    case Carry(ids, _, to) =>
      forall i, j :: i in ids && i in t && j in t && j !in ids && t[j].list == to ==> t[i].position != t[j].position
  }

  ghost predicate Legal(t: Table, es: seq<Edit>, maxLen: nat)
    decreases es
  {
    es == [] || (Legal(t, es[..|es| - 1], maxLen) && Possible(Run(t, es[..|es| - 1], maxLen), es[|es| - 1]))
  }

  ghost function Run(t: Table, es: seq<Edit>, maxLen: nat): Table
    decreases es
  {
    if es == [] then t else Next(Run(t, es[..|es| - 1], maxLen), es[|es| - 1], maxLen)
  }

  ghost predicate AllCareful(t: Table, es: seq<Edit>, maxLen: nat)
    decreases es
  {
    es == [] || (AllCareful(t, es[..|es| - 1], maxLen) && Careful(Run(t, es[..|es| - 1], maxLen), es[|es| - 1]))
  }

  /** Whatever the edit, keys stay good, and the longest grows by one digit at most. */
  lemma StepKeepsKeys(t: Table, e: Edit, n: nat, maxLen: nat)
    requires GoodKeys(t) && NoLonger(t, n) && Possible(t, e)
    ensures GoodKeys(Next(t, e, maxLen)) && NoLonger(Next(t, e, maxLen), n + 1)
  {
    hide Good, NextPosition, Reposition, BetweenKeys;
    match e
    case Create(id, list) => CreatedKey(t, id, list, n, maxLen);
    case Update(id, list, after, before) =>
      CreatedKey(t, id, list, n, maxLen);
      if IsMove(after, before) && Result(t, e, maxLen).Committed? {
        MoveIsBetween(t, id, list, after, before, maxLen);
      }
    case Carry(_, _, _) =>
  }

  lemma CreatedKey(t: Table, id: Id, list: List, n: nat, maxLen: nat)
    requires GoodKeys(t) && NoLonger(t, n)
    ensures NextPosition(t, list, maxLen).Ok? ==>
              Good(NextPosition(t, list, maxLen).key) && |NextPosition(t, list, maxLen).key| <= n + 1
  {
    hide BetweenKeys, Less, Gap;
    if NextPosition(t, list, maxLen).Ok? {
      NextIsLast(t, list, maxLen);
    }
    if NextPosition(t, list, maxLen).Ok? && exists i <- t :: t[i].list == list {
      GreatestExists(t, list);
      var last :| Greatest(t, list, last) && NextPosition(t, list, maxLen) == BetweenKeys(last, "", maxLen);
      BetweenExactly(last, "", maxLen);
      GapBound(last, "");
    }
  }

  /** A careful edit keeps every list in strict order. */
  lemma StepKeepsOrder(t: Table, e: Edit, maxLen: nat)
    requires Ordered(t) && GoodKeys(t) && Possible(t, e) && Careful(t, e)
    ensures Ordered(Next(t, e, maxLen))
  {
    hide Ordered, GoodKeys, Created, Carried, Reposition, Clear;
    if Result(t, e, maxLen).Committed? {
      match e
      case Create(id, list) => AppendKeepsOrder(t, id, list, maxLen);
      case Update(id, list, after, before) =>
        if IsMove(after, before) {
          ClearMoveKeepsOrder(t, id, list, after, before, maxLen);
        } else if list != t[id].list {
          AppendKeepsOrder(t, id, list, maxLen);
        }
      case Carry(ids, from, to) => CarryKeepsOrderExactly(t, ids, from, to);
    }
  }

  /** After any run of edits, careful or not, keys are good and have at most one digit an edit more. */
  lemma {:induction false} RunKeepsKeys(t: Table, es: seq<Edit>, n: nat, maxLen: nat)
    requires GoodKeys(t) && NoLonger(t, n) && Legal(t, es, maxLen)
    ensures GoodKeys(Run(t, es, maxLen)) && NoLonger(Run(t, es, maxLen), n + |es|)
    decreases es
  {
    hide Next, Possible, GoodKeys, NoLonger;
    if es != [] {
      RunKeepsKeys(t, es[..|es| - 1], n, maxLen);
      StepKeepsKeys(Run(t, es[..|es| - 1], maxLen), es[|es| - 1], n + |es| - 1, maxLen);
    }
  }

  /** A run of careful edits, over any number of lists, keeps each of them in strict order. */
  lemma {:induction false} RunKeepsOrder(t: Table, es: seq<Edit>, n: nat, maxLen: nat)
    requires Ordered(t) && GoodKeys(t) && NoLonger(t, n) && Legal(t, es, maxLen) && AllCareful(t, es, maxLen)
    ensures Ordered(Run(t, es, maxLen))
    decreases es
  {
    hide Next, Possible, Careful, Ordered, GoodKeys, NoLonger;
    if es != [] {
      RunKeepsOrder(t, es[..|es| - 1], n, maxLen);
      RunKeepsKeys(t, es[..|es| - 1], n, maxLen);
      StepKeepsOrder(Run(t, es[..|es| - 1], maxLen), es[|es| - 1], maxLen);
    }
  }

  /** The issue and its neighbours are there, and the neighbours are in order. */
  predicate Answerable(t: Table, e: Edit) {
    match e
    case Update(id, list, after, before) =>
      && id in t && Neighbour(t, list, after).Some? && Neighbour(t, list, before).Some?
      && (after.Some? && before.Some? ==> Less(Neighbour(t, list, after).value, Neighbour(t, list, before).value))
    case _ => true
  }

  /**
   * Among the first edits, as many as the depth limit allows beyond the keys at the start, none fails for lack
   * of room: an edit fails exactly when an issue it names is missing or its neighbours are not in order.
   */
  lemma FirstEditsNeverFail(t: Table, es: seq<Edit>, e: Edit, n: nat, maxLen: nat)
    requires GoodKeys(t) && NoLonger(t, n) && n + |es| < maxLen && Legal(t, es, maxLen)
    ensures Result(Run(t, es, maxLen), e, maxLen).Committed? <==> Answerable(Run(t, es, maxLen), e)
  {
    hide Run, Legal, GoodKeys, NoLonger, Result, Answerable;
    RunKeepsKeys(t, es, n, maxLen);
    EditFits(Run(t, es, maxLen), e, n + |es|, maxLen);
  }

  lemma EditFits(t: Table, e: Edit, n: nat, maxLen: nat)
    requires GoodKeys(t) && NoLonger(t, n) && n < maxLen
    ensures Result(t, e, maxLen).Committed? <==> Answerable(t, e)
  {
    hide BetweenKeys, Less, NextPosition;
    match e
    case Create(_, list) => AppendFits(t, list, n, maxLen);
    case Update(id, list, after, before) =>
      AppendFits(t, list, n, maxLen);
      var lo, hi := Neighbour(t, list, after), Neighbour(t, list, before);
      if lo.Some? && hi.Some? {
        BoundFits(t, list, after, n);
        BoundFits(t, list, before, n);
        BetweenFitsExactly(lo.value, hi.value, maxLen);
      }
    case Carry(_, _, _) =>
  }

  lemma BoundFits(t: Table, list: List, id: Option<Id>, n: nat)
    requires GoodKeys(t) && NoLonger(t, n) && Neighbour(t, list, id).Some?
    ensures var k := Neighbour(t, list, id).value; |k| <= n && (id.None? <==> k == "") && (k != "" ==> Good(k))
  {
    hide IsKey;
  }

  lemma BetweenFitsExactly(a: Key, b: Key, maxLen: nat)
    requires (a != "" ==> Good(a)) && (b != "" ==> Good(b)) && |a| < maxLen && |b| < maxLen
    ensures BetweenKeys(a, b, maxLen).Ok? <==> (a != "" && b != "" ==> Less(a, b))
  {
    hide BetweenKeys, Less;
    EmptyIsKey();
    BetweenExactly(a, b, maxLen);
    if a != "" && b != "" ==> Less(a, b) {
      BetweenAlwaysFits(a, b, maxLen);
    }
  }

  lemma EmptyIsKey()
    ensures IsKey("")
  {
  }

  lemma AppendFits(t: Table, list: List, n: nat, maxLen: nat)
    requires GoodKeys(t) && NoLonger(t, n) && n < maxLen
    ensures NextPosition(t, list, maxLen).Ok?
  {
    hide BetweenKeys, Less, Good;
    if exists i <- t :: t[i].list == list {
      GreatestExists(t, list);
      var last :| Greatest(t, list, last) && NextPosition(t, list, maxLen) == BetweenKeys(last, "", maxLen);
      EmptyBound(last, maxLen);
    }
  }

  lemma EmptyBound(k: Key, maxLen: nat)
    requires Good(k) && |k| < maxLen
    ensures BetweenKeys(k, "", maxLen).Ok?
  {
    BetweenFitsExactly(k, "", maxLen);
  }

  // ----- What an edit leaves -----

  /** A list is full when its last position starts with as many of the last digit as a key may have. */
  predicate Full(t: Table, list: List, maxLen: nat) {
    exists i <- t :: t[i].list == list && AllLast(t[i].position, maxLen)
  }

  predicate AllLast(k: Key, n: nat) {
    |k| >= n && forall i | 0 <= i < n :: k[i] == 'z'
  }

  lemma {:induction false} RoomIsUsedUp(k: Key, i: nat, n: nat)
    requires i <= n
    ensures RoomFrom(k, i) >= n <==> (|k| >= n || i == n) && forall j | i <= j < n :: k[j] == 'z'
    decreases n - i
  {
    if i < n && i < |k| && k[i] == 'z' {
      RoomIsUsedUp(k, i + 1, n);
    }
  }

  /** No key is greater than one that starts with the last digit only, unless it does so too. */
  lemma {:induction false} AllLastIsUp(a: Key, b: Key, n: nat)
    requires IsKey(a) && IsKey(b) && AllLast(a, n) && Before(a, b)
    ensures AllLast(b, n)
  {
    if n > 0 && a != b {
      FirstDigits(a, b);
      var a', b' := a[1..], b[1..];
      assert forall c <- a' :: c in a;
      assert forall c <- b' :: c in b;
      AllLastIsUp(a', b', n - 1);
      assert forall i | 1 <= i < n :: b[i] == b'[i - 1];
    }
  }

  lemma FirstDigits(a: Key, b: Key)
    requires IsKey(a) && IsKey(b) && a != "" && a[0] == 'z' && Less(a, b)
    ensures b != "" && b[0] == 'z' && Less(a[1..], b[1..])
  {
    DigitOf(b, 0);
  }

  /** A new issue ends its list, or starts it with the first key, and only a full list refuses it. */
  lemma CreateExactly(t: Table, id: Id, list: List, maxLen: nat)
    requires GoodKeys(t) && maxLen > 0
    ensures var o := Created(t, id, list, maxLen);
            if Full(t, list, maxLen) then o == Refused(NoKey(TooDeep))
            else
              && o.Committed? && id in o.table && o.table == t[id := o.table[id]] && o.table[id].list == list
              && (forall i <- t :: t[i].list == list ==> Less(t[i].position, o.table[id].position))
              && ((forall i <- t :: t[i].list != list) ==> o.table[id].position == "V")
  {
    hide BetweenKeys, Less, IsKey, AllLast, RoomFrom;
    NextExactly(t, list, maxLen);
    if NextPosition(t, list, maxLen).Ok? {
      NextIsLast(t, list, maxLen);
    }
  }

  lemma NextExactly(t: Table, list: List, maxLen: nat)
    requires GoodKeys(t) && maxLen > 0
    ensures if Full(t, list, maxLen) then NextPosition(t, list, maxLen) == Err(TooDeep)
            else NextPosition(t, list, maxLen).Ok?
  {
    hide BetweenKeys, Less, AllLast, RoomFrom, IsKey;
    if exists i <- t :: t[i].list == list {
      GreatestExists(t, list);
      var last :| Greatest(t, list, last) && NextPosition(t, list, maxLen) == BetweenKeys(last, "", maxLen);
      var i :| i in t && t[i] == Issue(list, last);
      KeyBetween(last, "", maxLen);
      LastUsedUp(last, maxLen);
      forall i <- t | t[i].list == list && AllLast(t[i].position, maxLen) ensures AllLast(last, maxLen) {
        AllLastIsUp(t[i].position, last, maxLen);
      }
    }
  }

  lemma LastUsedUp(last: Key, maxLen: nat)
    requires maxLen > 0
    ensures Gap(last, "") >= maxLen <==> AllLast(last, maxLen)
  {
    RoomIsUsedUp(last, 0, maxLen);
  }

  /** The named issue is in the list; naming none is fine. */
  predicate Listed(t: Table, list: List, id: Option<Id>) {
    id.Some? ==> id.value in t && t[id.value].list == list
  }

  /**
   * A changed issue ends up in its list, after and before the issues named, behind all of a new list when none is
   * named, and where it was otherwise; every other issue is left alone.
   */
  lemma UpdateExactly(t: Table, id: Id, list: List, after: Option<Id>, before: Option<Id>, maxLen: nat)
    requires GoodKeys(t) && Updated(t, id, list, after, before, maxLen).Committed?
    ensures var u := Updated(t, id, list, after, before, maxLen).table;
            && id in t && id in u && u == t[id := u[id]] && u[id].list == list
            && Listed(t, list, after) && Listed(t, list, before)
            && (after.Some? ==> Less(t[after.value].position, u[id].position))
            && (before.Some? ==> Less(u[id].position, t[before.value].position))
            && (after == before == None && t[id].list == list ==> u[id] == t[id])
            && (after == before == None && t[id].list != list ==>
                forall i <- t :: t[i].list == list ==> Less(t[i].position, u[id].position))
  {
    hide Good, BetweenKeys, NextPosition, Less, Gap;
    if IsMove(after, before) {
      MoveIsBetween(t, id, list, after, before, maxLen);
      if before.Some? {
        NotEmpty(t, before.value);
      }
    } else if list != t[id].list {
      NextIsLast(t, list, maxLen);
    }
  }

  lemma NotEmpty(t: Table, id: Id)
    requires GoodKeys(t) && id in t
    ensures t[id].position != ""
  {
  }

  /** A change is refused exactly for a missing issue, neighbours out of order, or want of room. */
  lemma RefusedExactly(t: Table, id: Id, list: List, after: Option<Id>, before: Option<Id>, maxLen: nat)
    requires GoodKeys(t) && maxLen > 0
    ensures var o := Updated(t, id, list, after, before, maxLen);
            var named := id in t && Listed(t, list, after) && Listed(t, list, before);
            var lo := if named && after.Some? then t[after.value].position else "";
            var hi := if named && before.Some? then t[before.value].position else "";
            var crossed := after.Some? && before.Some? && !Less(lo, hi);
            var full := if IsMove(after, before) then Gap(lo, hi) >= maxLen
                        else id in t && list != t[id].list && Full(t, list, maxLen);
            && (o == Refused(NotFound) <==> !named)
            && (o == Refused(NoKey(OutOfOrder)) <==> named && crossed)
            && (o == Refused(NoKey(TooDeep)) <==> named && !crossed && full)
  {
    hide BetweenKeys, NextPosition, Less, Gap, Full;
    if IsMove(after, before) {
      var lo, hi := Neighbour(t, list, after), Neighbour(t, list, before);
      if lo.Some? && hi.Some? {
        GoodBound(t, list, after);
        GoodBound(t, list, before);
        KeyBetween(lo.value, hi.value, maxLen);
      }
    } else {
      NextExactly(t, list, maxLen);
    }
  }

  lemma GoodBound(t: Table, list: List, id: Option<Id>)
    requires GoodKeys(t) && Neighbour(t, list, id).Some?
    ensures var k := Neighbour(t, list, id).value; (id.None? <==> k == "") && (k != "" ==> Good(k))
  {
  }

  lemma KeyBetween(a: Key, b: Key, maxLen: nat)
    requires (a != "" ==> Good(a)) && (b != "" ==> Good(b))
    ensures var crossed := a != "" && b != "" && !Less(a, b);
            && (BetweenKeys(a, b, maxLen) == Err(OutOfOrder) <==> crossed)
            && (BetweenKeys(a, b, maxLen).Ok? <==> !crossed && Gap(a, b) < maxLen)
            && (BetweenKeys(a, b, maxLen) == Err(TooDeep) <==> !crossed && Gap(a, b) >= maxLen)
  {
    hide BetweenKeys, Less, Gap;
    EmptyIsKey();
    BetweenExactly(a, b, maxLen);
    LessIrreflexive(a);
    if ZeroExtension(a, b) && |a| == |b| {
      assert a == b;
    }
    match BetweenKeys(a, b, maxLen)
    case Ok(_) =>
    case Err(e) => assert e == OutOfOrder || e == TooDeep;
  }

  /** The unfinished issues of the list, and no others, change to the new list, and no position changes. */
  lemma CarryExactly(t: Table, unfinished: set<Id>, from: List, to: List)
    ensures var u := Carried(t, Unfinished(t, unfinished, from), to);
            && u.Keys == t.Keys
            && forall i <- t :: u[i].position == t[i].position
                                && u[i].list == if t[i].list == from && i in unfinished then to else t[i].list
  {
  }
}
