/** Nesting the comments of one target: replies go under their parent, orphans stay in the log. */
module Comments {
  import opened Bytes

  type Id = nat

  datatype Comment = Comment(id: Id, parent: Option<Id>, body: string)
  datatype Thread = Thread(comment: Comment, replies: seq<Comment>)

  /** Ids are the table's key. */
  predicate Keyed(flat: seq<Comment>) {
    forall i, j | 0 <= i < j < |flat| :: flat[i].id != flat[j].id
  }

  function Roots(flat: seq<Comment>): seq<Comment> {
    if flat == [] then []
    else Roots(flat[..|flat| - 1]) + if flat[|flat| - 1].parent.None? then [flat[|flat| - 1]] else []
  }

  function RepliesTo(flat: seq<Comment>, id: Id): seq<Comment> {
    if flat == [] then []
    else RepliesTo(flat[..|flat| - 1], id) + if flat[|flat| - 1].parent == Some(id) then [flat[|flat| - 1]] else []
  }

  predicate IsRoot(roots: seq<Comment>, id: Id) {
    exists k | 0 <= k < |roots| :: roots[k].id == id
  }

  /** Replies whose parent is gone, or is itself a reply. */
  function Orphans(flat: seq<Comment>, roots: seq<Comment>): seq<Comment> {
    if flat == [] then []
    else
      var c := flat[|flat| - 1];
      Orphans(flat[..|flat| - 1], roots) + if c.parent.Some? && !IsRoot(roots, c.parent.value) then [c] else []
  }

  function Alone(c: Comment): Thread {
    Thread(c, [])
  }

  function AllAlone(cs: seq<Comment>): (r: seq<Thread>)
    ensures |r| == |cs| && forall k | 0 <= k < |cs| :: r[k] == Alone(cs[k])
  {
    seq(|cs|, k requires 0 <= k < |cs| => Alone(cs[k]))
  }

  function Nested(flat: seq<Comment>, roots: seq<Comment>): (r: seq<Thread>)
    ensures |r| == |roots| && forall k | 0 <= k < |roots| :: r[k] == Thread(roots[k], RepliesTo(flat, roots[k].id))
  {
    seq(|roots|, k requires 0 <= k < |roots| => Thread(roots[k], RepliesTo(flat, roots[k].id)))
  }

  /** Roots in order, each with its replies in order, and then the orphans in order. */
  function Threads(flat: seq<Comment>): seq<Thread> {
    Nested(flat, Roots(flat)) + AllAlone(Orphans(flat, Roots(flat)))
  }

  method ListComments(flat: seq<Comment>) returns (out: seq<Thread>)
    requires Keyed(flat)
    ensures out == Threads(flat)
  {
    hide Keyed, Roots, RepliesTo, Orphans, IsRoot, Indexes, Nested, AllAlone;
    var index: map<Id, nat>;
    out, index := IndexRoots(flat);
    var roots := Roots(flat);
    NothingNested(roots);
    for n := 0 to |flat|
      invariant out == Nested(flat[..n], roots) + AllAlone(Orphans(flat[..n], roots))
    {
      var c := flat[n];
      assert flat[..n + 1][..n] == flat[..n];
      if c.parent.None? {
        NestStep(flat[..n + 1], roots);
        continue;
      }
      IndexedIsRoot(index, roots, c.parent.value);
      if c.parent.value in index {
        var i := index[c.parent.value];
        NestUnder(flat[..n + 1], roots, i);
        out := out[i := out[i].(replies := out[i].replies + [c])];
        continue;
      }
      NestStep(flat[..n + 1], roots);
      out := out + [Alone(c)];
    }
    assert flat[..|flat|] == flat;
  }

  /** The top-level comments without replies, and where each of them is. */
  method IndexRoots(flat: seq<Comment>) returns (out: seq<Thread>, index: map<Id, nat>)
    requires Keyed(flat)
    ensures out == AllAlone(Roots(flat))
    ensures Indexes(index, Roots(flat))
  {
    hide Keyed, Indexes, AllAlone;
    NoRoots();
    out, index := [], map[];
    for n := 0 to |flat|
      invariant out == AllAlone(Roots(flat[..n])) && Indexes(index, Roots(flat[..n]))
    {
      var c := flat[n];
      assert flat[..n + 1][..n] == flat[..n];
      if c.parent.None? {
        NewRoot(flat, n);
        AloneAppends(Roots(flat[..n]), c);
        IndexGrows(index, Roots(flat[..n]), c);
        index := index[c.id := |out|];
        out := out + [Alone(c)];
      } else {
        assert Roots(flat[..n + 1]) == Roots(flat[..n]);
      }
    }
    assert flat[..|flat|] == flat;
  }

  predicate Indexes(index: map<Id, nat>, roots: seq<Comment>) {
    && (forall id <- index :: index[id] < |roots| && roots[index[id]].id == id)
    && (forall k | 0 <= k < |roots| :: roots[k].id in index && index[roots[k].id] == k)
  }

  lemma NoRoots()
    ensures AllAlone([]) == [] && Indexes(map[], [])
  {
  }

  lemma IndexGrows(index: map<Id, nat>, roots: seq<Comment>, c: Comment)
    requires Indexes(index, roots) && forall k | 0 <= k < |roots| :: roots[k].id != c.id
    ensures Indexes(index[c.id := |roots|], roots + [c])
  {
  }

  lemma IndexedIsRoot(index: map<Id, nat>, roots: seq<Comment>, id: Id)
    requires Indexes(index, roots)
    ensures id in index <==> IsRoot(roots, id)
    ensures id in index ==> index[id] < |roots| && roots[index[id]].id == id
    ensures forall j, k | 0 <= j < k < |roots| :: roots[j].id != roots[k].id
  {
  }

  /** Roots are comments of the log, so a later comment is none of them. */
  lemma {:induction false} RootsAreListed(flat: seq<Comment>)
    ensures forall c <- Roots(flat) :: c in flat && c.parent.None?
  {
    if flat != [] {
      RootsAreListed(flat[..|flat| - 1]);
    }
  }

  lemma NewRoot(flat: seq<Comment>, n: nat)
    requires Keyed(flat) && n < |flat|
    ensures forall k | 0 <= k < |Roots(flat[..n])| :: Roots(flat[..n])[k].id != flat[n].id
  {
    RootsAreListed(flat[..n]);
    forall k | 0 <= k < |Roots(flat[..n])| ensures Roots(flat[..n])[k].id != flat[n].id {
      assert Roots(flat[..n])[k] in flat[..n];
    }
  }

  lemma NothingNested(roots: seq<Comment>)
    ensures Nested([], roots) + AllAlone(Orphans([], roots)) == AllAlone(roots)
  {
  }

  /** A comment that is under no root leaves the roots' replies alone. */
  lemma NestStep(flat: seq<Comment>, roots: seq<Comment>)
    requires flat != []
    requires flat[|flat| - 1].parent.Some? ==> !IsRoot(roots, flat[|flat| - 1].parent.value)
    ensures Nested(flat, roots) == Nested(flat[..|flat| - 1], roots)
    ensures flat[|flat| - 1].parent.Some? ==>
              AllAlone(Orphans(flat, roots)) == AllAlone(Orphans(flat[..|flat| - 1], roots)) + [Alone(flat[|flat| - 1])]
    ensures flat[|flat| - 1].parent.None? ==> Orphans(flat, roots) == Orphans(flat[..|flat| - 1], roots)
  {
    var before := flat[..|flat| - 1];
    forall k | 0 <= k < |roots| ensures RepliesTo(flat, roots[k].id) == RepliesTo(before, roots[k].id) {
    }
    assert Nested(flat, roots) == Nested(before, roots);
    if flat[|flat| - 1].parent.Some? {
      AloneAppends(Orphans(before, roots), flat[|flat| - 1]);
    }
  }

  lemma AloneAppends(cs: seq<Comment>, c: Comment)
    ensures AllAlone(cs + [c]) == AllAlone(cs) + [Alone(c)]
  {
  }

  /** A reply to the i-th root is added to its replies and to nothing else. */
  lemma NestUnder(flat: seq<Comment>, roots: seq<Comment>, i: nat)
    requires flat != [] && i < |roots| && flat[|flat| - 1].parent == Some(roots[i].id)
    requires forall j, k | 0 <= j < k < |roots| :: roots[j].id != roots[k].id
    ensures var before, c := flat[..|flat| - 1], flat[|flat| - 1];
            && Nested(flat, roots) == Nested(before, roots)[i := Thread(roots[i], RepliesTo(before, roots[i].id) + [c])]
            && Orphans(flat, roots) == Orphans(before, roots)
  {
    var before, c := flat[..|flat| - 1], flat[|flat| - 1];
    assert IsRoot(roots, roots[i].id);
    forall k | 0 <= k < |roots|
      ensures k == i ==> RepliesTo(flat, roots[k].id) == RepliesTo(before, roots[k].id) + [c]
      ensures k != i ==> RepliesTo(flat, roots[k].id) == RepliesTo(before, roots[k].id)
    {
      assert k < i ==> roots[k].id != roots[i].id;
      assert i < k ==> roots[i].id != roots[k].id;
    }
    assert Nested(flat, roots) == Nested(before, roots)[i := Thread(roots[i], RepliesTo(before, roots[i].id) + [c])];
  }

  // ----- Nothing is lost -----

  /** Every comment in a thread, replies included. */
  function Flattened(threads: seq<Thread>): multiset<Comment> {
    if threads == [] then multiset{}
    else
      var t := threads[|threads| - 1];
      Flattened(threads[..|threads| - 1]) + multiset{t.comment} + multiset(t.replies)
  }

  /** Every comment of the log appears exactly once, at the top or under its parent. */
  lemma Conservation(flat: seq<Comment>)
    requires Keyed(flat)
    ensures Flattened(Threads(flat)) == multiset(flat)
  {
    RootsDistinct(flat);
    Accounted(flat, Roots(flat));
    RootsAndReplies(flat);
  }

  lemma {:induction false} RootsDistinct(flat: seq<Comment>)
    requires Keyed(flat)
    ensures forall j, k | 0 <= j < k < |Roots(flat)| :: Roots(flat)[j].id != Roots(flat)[k].id
  {
    if flat != [] {
      var front := flat[..|flat| - 1];
      RootsDistinct(front);
      NewRoot(flat, |flat| - 1);
    }
  }

  function Replies(flat: seq<Comment>): seq<Comment> {
    if flat == [] then []
    else Replies(flat[..|flat| - 1]) + if flat[|flat| - 1].parent.Some? then [flat[|flat| - 1]] else []
  }

  lemma Counted(front: seq<Comment>, c: Comment)
    ensures multiset(front + [c]) == multiset(front) + multiset{c}
  {
  }

  lemma {:induction false} RootsAndReplies(flat: seq<Comment>)
    ensures multiset(Roots(flat)) + multiset(Replies(flat)) == multiset(flat)
  {
    if flat != [] {
      var front, c := flat[..|flat| - 1], flat[|flat| - 1];
      RootsAndReplies(front);
      Counted(front, c);
      assert flat == front + [c];
      if c.parent.None? {
        Counted(Roots(front), c);
      } else {
        Counted(Replies(front), c);
      }
    }
  }

  /** Under fixed roots, each further comment of the log is added once to the threads. */
  lemma {:induction false} Accounted(flat: seq<Comment>, roots: seq<Comment>)
    requires forall j, k | 0 <= j < k < |roots| :: roots[j].id != roots[k].id
    ensures Flattened(Nested(flat, roots) + AllAlone(Orphans(flat, roots))) == multiset(roots) + multiset(Replies(flat))
  {
    if flat == [] {
      NothingNested(roots);
      AloneFlattened(roots);
    } else {
      var before, c := flat[..|flat| - 1], flat[|flat| - 1];
      Accounted(before, roots);
      AccountedStep(flat, roots);
      if c.parent.Some? {
        Counted(Replies(before), c);
      }
    }
  }

  lemma AccountedStep(flat: seq<Comment>, roots: seq<Comment>)
    requires flat != [] && forall j, k | 0 <= j < k < |roots| :: roots[j].id != roots[k].id
    ensures var before, c := flat[..|flat| - 1], flat[|flat| - 1];
            Flattened(Nested(flat, roots) + AllAlone(Orphans(flat, roots)))
            == Flattened(Nested(before, roots) + AllAlone(Orphans(before, roots))) + if c.parent.Some? then multiset{c}
              else multiset{}
  {
    hide RepliesTo, Flattened;
    var before, c := flat[..|flat| - 1], flat[|flat| - 1];
    var threads := Nested(before, roots) + AllAlone(Orphans(before, roots));
    if c.parent.Some? && IsRoot(roots, c.parent.value) {
      var i :| 0 <= i < |roots| && roots[i].id == c.parent.value;
      NestUnder(flat, roots, i);
      ReplyFlattened(threads, i, c);
      assert Nested(flat, roots) + AllAlone(Orphans(flat, roots)) ==
        threads[i := Thread(roots[i], threads[i].replies + [c])];
    } else {
      NestStep(flat, roots);
      if c.parent.Some? {
        assert Nested(flat, roots) + AllAlone(Orphans(flat, roots)) == threads + [Alone(c)];
        OneMore(threads, c);
      }
    }
  }

  lemma OneMore(threads: seq<Thread>, c: Comment)
    ensures Flattened(threads + [Alone(c)]) == Flattened(threads) + multiset{c}
  {
    assert (threads + [Alone(c)])[..|threads|] == threads;
  }

  lemma {:induction false} AloneFlattened(cs: seq<Comment>)
    ensures Flattened(AllAlone(cs)) == multiset(cs)
  {
    if cs != [] {
      var front, c := cs[..|cs| - 1], cs[|cs| - 1];
      AloneFlattened(front);
      AloneAppends(front, c);
      OneMore(AllAlone(front), c);
      Counted(front, c);
      assert cs == front + [c];
    }
  }

  lemma {:induction false} ReplyFlattened(threads: seq<Thread>, i: nat, c: Comment)
    requires i < |threads|
    ensures Flattened(threads[i := threads[i].(replies := threads[i].replies + [c])]) ==
            Flattened(threads) + multiset{c}
  {
    var after := threads[i := threads[i].(replies := threads[i].replies + [c])];
    var n := |threads| - 1;
    if i == n {
      assert after[..n] == threads[..n];
    } else {
      assert after[..n] == threads[..n][i := threads[i].(replies := threads[i].replies + [c])];
      ReplyFlattened(threads[..n], i, c);
    }
  }

  // ----- Who is where -----

  /** The comments that pass a test, in the order of the log. */
  function Those(flat: seq<Comment>, test: Comment -> bool): seq<Comment> {
    if flat == [] then []
    else (if test(flat[0]) then [flat[0]] else []) + Those(flat[1..], test)
  }

  lemma {:induction false} ThoseSnoc(flat: seq<Comment>, c: Comment, test: Comment -> bool)
    ensures Those(flat + [c], test) == Those(flat, test) + if test(c) then [c] else []
  {
    if flat != [] {
      assert (flat + [c])[1..] == flat[1..] + [c];
      ThoseSnoc(flat[1..], c, test);
    }
  }

  function HasNoParent(): Comment -> bool {
    (c: Comment) => c.parent.None?
  }

  function AnswersTo(id: Id): Comment -> bool {
    (c: Comment) => c.parent.Some? && c.parent.value == id
  }

  /** A reply to a comment that is not there, or that is a reply itself. */
  function IsStray(flat: seq<Comment>): Comment -> bool {
    (c: Comment) => c.parent.Some? && forall d <- flat :: d.id == c.parent.value ==> d.parent.Some?
  }

  lemma {:induction false} RootsAreThose(flat: seq<Comment>)
    ensures Roots(flat) == Those(flat, HasNoParent())
  {
    if flat != [] {
      RootsAreThose(flat[..|flat| - 1]);
      ThoseSnoc(flat[..|flat| - 1], flat[|flat| - 1], HasNoParent());
      assert flat == flat[..|flat| - 1] + [flat[|flat| - 1]];
    }
  }

  lemma {:induction false} RepliesAreThose(flat: seq<Comment>, id: Id)
    ensures RepliesTo(flat, id) == Those(flat, AnswersTo(id))
  {
    if flat != [] {
      RepliesAreThose(flat[..|flat| - 1], id);
      ThoseSnoc(flat[..|flat| - 1], flat[|flat| - 1], AnswersTo(id));
      assert flat == flat[..|flat| - 1] + [flat[|flat| - 1]];
    }
  }

  lemma {:induction false} OrphansAreThose(flat: seq<Comment>, all: seq<Comment>)
    ensures Orphans(flat, Roots(all)) == Those(flat, IsStray(all))
  {
    hide Roots;
    if flat != [] {
      var c := flat[|flat| - 1];
      OrphansAreThose(flat[..|flat| - 1], all);
      ThoseSnoc(flat[..|flat| - 1], c, IsStray(all));
      assert flat == flat[..|flat| - 1] + [c];
      if c.parent.Some? {
        RootHasId(all, c.parent.value);
      }
    }
  }

  lemma {:induction false} RootHasId(all: seq<Comment>, id: Id)
    ensures IsRoot(Roots(all), id) <==> exists d <- all :: d.id == id && d.parent.None?
  {
    RootsAreListed(all);
    if d :| d in all && d.id == id && d.parent.None? {
      RootListed(all, d);
    }
  }

  lemma {:induction false} RootListed(all: seq<Comment>, d: Comment)
    requires d in all && d.parent.None?
    ensures d in Roots(all)
  {
    if d != all[|all| - 1] {
      assert all == all[..|all| - 1] + [all[|all| - 1]];
      RootListed(all[..|all| - 1], d);
    }
  }

  /**
   * First the comments without a parent, in the order of the log, each with the replies to it in that order;
   * then, alone and in that order, the replies whose parent is not among them.
   */
  lemma ThreadsInOrder(flat: seq<Comment>)
    ensures var roots, strays, threads := Those(flat, HasNoParent()), Those(flat, IsStray(flat)), Threads(flat);
            && |threads| == |roots| + |strays|
            && (forall k | 0 <= k < |roots| :: threads[k] == Thread(roots[k], Those(flat, AnswersTo(roots[k].id))))
            && (forall k | 0 <= k < |strays| :: threads[|roots| + k] == Thread(strays[k], []))
  {
    hide *;
    RootsAreThose(flat);
    OrphansAreThose(flat, flat);
    NestedThose(flat, Roots(flat));
    ThreadsAre(flat);
  }

  lemma NestedThose(flat: seq<Comment>, roots: seq<Comment>)
    ensures forall k | 0 <= k < |roots| ::
              Nested(flat, roots)[k] == Thread(roots[k], Those(flat, AnswersTo(roots[k].id)))
  {
    hide RepliesTo, Those;
    forall k | 0 <= k < |roots|
      ensures Nested(flat, roots)[k] == Thread(roots[k], Those(flat, AnswersTo(roots[k].id)))
    {
      RepliesAreThose(flat, roots[k].id);
    }
  }

  lemma ThreadsAre(flat: seq<Comment>)
    ensures var n, strays := |Roots(flat)|, Orphans(flat, Roots(flat));
            && |Threads(flat)| == n + |strays|
            && (forall k | 0 <= k < n :: Threads(flat)[k] == Nested(flat, Roots(flat))[k])
            && (forall k | 0 <= k < |strays| :: Threads(flat)[n + k] == Thread(strays[k], []))
  {
    hide Roots, RepliesTo, Orphans;
  }
}
