/** Reading an installation's repositories page by page: the whole list or nothing. */
module Listing {
  import opened Bytes

  type Url = string

  const MAX_PAGES := 100

  datatype Repository = Repository(id: int, owner: string, name: string)

  /** Where the next page is: nowhere, elsewhere on the same endpoint, or somewhere not to be trusted. */
  datatype Next = Done | More(url: Url) | Untrusted

  datatype Answer = Failed | Page(total: int, repositories: seq<Repository>, next: Next)

  /** The provider's answer to the k-th request, which may differ from an earlier answer for the same address. */
  type Provider = (nat, Url) -> Answer

  datatype Step = Step(url: Url, page: Answer)

  // ----- What a complete reading is -----

  /** The pages from the k-th on, if following them ends within the bound. */
  function Walk(fetch: Provider, k: nat, url: Url): (r: Option<seq<Step>>)
    ensures r.Some? ==> r.value != [] && forall i | 0 <= i < |r.value| :: r.value[i].page.Page?
    decreases MAX_PAGES - k
  {
    if k >= MAX_PAGES then None
    else
      var page := fetch(k, url);
      if page.Failed? || page.next.Untrusted? then None
      else if page.next.Done? then Some([Step(url, page)])
      else
        match Walk(fetch, k + 1, page.next.url)
        case None => None
        case Some(rest) => Some([Step(url, page)] + rest)
  }

  function All(steps: seq<Step>): seq<Repository>
    requires forall i | 0 <= i < |steps| :: steps[i].page.Page?
  {
    if steps == [] then [] else All(steps[..|steps| - 1]) + steps[|steps| - 1].page.repositories
  }

  predicate Named(r: Repository) {
    r.id > 0 && r.owner != "" && r.name != ""
  }

  predicate Distinct(rs: seq<Repository>) {
    forall i, j | 0 <= i < j < |rs| :: rs[i].id != rs[j].id
  }

  /** No page was read twice, every page gave the same total, and no repository came twice or unnamed. */
  predicate Consistent(steps: seq<Step>, total: int) {
    && (forall i | 0 <= i < |steps| :: steps[i].page.Page? && steps[i].page.total == total)
    && (forall i, j | 0 <= i < j < |steps| :: steps[i].url != steps[j].url)
    && Distinct(All(steps)) && (forall r <- All(steps) :: Named(r)) && |All(steps)| <= total
  }

  /** The pages end and together hold exactly as many repositories as each of them announced. */
  predicate Complete(fetch: Provider, start: Url) {
    && Walk(fetch, 0, start).Some?
    && var steps := Walk(fetch, 0, start).value;
       Consistent(steps, steps[0].page.total) && |All(steps)| == steps[0].page.total
  }

  // ----- Prefixes of a reading -----

  lemma {:induction false} AllConcat(a: seq<Step>, b: seq<Step>)
    requires forall i | 0 <= i < |a| :: a[i].page.Page?
    requires forall i | 0 <= i < |b| :: b[i].page.Page?
    ensures All(a + b) == All(a) + All(b)
  {
    if b == [] {
      assert a + b == a;
    } else {
      assert (a + b)[..|a + b| - 1] == a + b[..|b| - 1];
      AllConcat(a, b[..|b| - 1]);
    }
  }

  /** Whatever is wrong with the beginning of a reading is wrong with all of it. */
  lemma PrefixConsistent(a: seq<Step>, b: seq<Step>, total: int)
    requires Consistent(a + b, total)
    ensures Consistent(a, total)
  {
    assert forall i | 0 <= i < |a| :: (a + b)[i] == a[i];
    assert forall i | 0 <= i < |b| :: (a + b)[|a| + i] == b[i];
    AllConcat(a, b);
    assert forall i | 0 <= i < |All(a)| :: All(a + b)[i] == All(a)[i];
  }

  function Prepended(done: seq<Step>, rest: Option<seq<Step>>): Option<seq<Step>> {
    match rest
    case None => None
    case Some(steps) => Some(done + steps)
  }

  /** An inconsistent beginning leaves nothing complete. */
  lemma Hopeless(fetch: Provider, start: Url, done: seq<Step>, next: Next)
    requires Follows(fetch, start, done, next) && done != [] && !Consistent(done, done[0].page.total)
    ensures !Complete(fetch, start)
  {
    hide Walk;
    if Walk(fetch, 0, start).Some? {
      var steps := Walk(fetch, 0, start).value;
      var rest := steps[|done|..];
      assert steps == done + rest;
      if Consistent(steps, steps[0].page.total) {
        PrefixConsistent(done, rest, steps[0].page.total);
      }
    }
  }

  lemma NothingYet(rest: Option<seq<Step>>)
    ensures Prepended([], rest) == rest
  {
    if rest.Some? {
      assert [] + rest.value == rest.value;
    }
  }

  // ----- The loop -----

  function IdsOf(rs: seq<Repository>): set<int> {
    set i | 0 <= i < |rs| :: rs[i].id
  }

  /** The addresses read so far. */
  function Urls(steps: seq<Step>): set<Url> {
    set i | 0 <= i < |steps| :: steps[i].url
  }

  method ListInstallationRepositories(fetch: Provider, start: Url) returns (r: Option<seq<Repository>>)
    ensures r.Some? <==> Complete(fetch, start)
    ensures r.Some? ==> r.value == All(Walk(fetch, 0, start).value)
  {
    hide Walk, Complete, Consistent, Distinct, Named, IdsOf, Urls, Prepended;
    var next: Next := More(start);
    var visited: set<Url>, seen: set<int>, out: seq<Repository>, total := {}, {}, [], -1;
    var pages := 0;
    ghost var done: seq<Step> := [];
    NothingRead(fetch, start);
    while next.More?
      invariant pages == |done| <= MAX_PAGES && Follows(fetch, start, done, next)
      invariant Consistent(done, if done == [] then 0 else total)
      invariant if done == [] then total == -1 else total == done[0].page.total >= 0
      invariant !next.Untrusted? && (done == [] ==> next.More?)
      invariant visited == Urls(done) && seen == IdsOf(out) && out == All(done)
      decreases MAX_PAGES - pages, next.More?
    {
      if pages >= MAX_PAGES {
        WalkEnds(fetch, start, done, next);
        return None;
      }
      var page := fetch(pages, next.url);
      FollowsStep(fetch, start, done, next.url, page);
      if page.Failed? {
        return None;
      }
      ghost var step := Step(next.url, page);
      if next.url in visited || page.total < 0 || (total != -1 && total != page.total) {
        StepBreaks(done, step);
        Hopeless(fetch, start, done + [step], page.next);
        return None;
      }
      ConsistentStep(done, step, total);
      var added := AddPage(out, seen, page.repositories);
      if added.None? || |out + page.repositories| > page.total {
        Hopeless(fetch, start, done + [step], page.next);
        return None;
      }
      if page.next.Untrusted? {
        return None;
      }
      UrlsGrow(done, step);
      visited := visited + {next.url};
      seen := added.value;
      out := out + page.repositories;
      total := page.total;
      next := page.next;
      pages := pages + 1;
      done := done + [step];
    }
    AllRead(fetch, start, done);
    if |out| != total {
      return None;
    }
    return Some(out);
  }

  /** The ids with those of a page, unless one is unnamed or there already. */
  method AddPage(out: seq<Repository>, seen: set<int>, page: seq<Repository>) returns (r: Option<set<int>>)
    requires Distinct(out) && (forall x <- out :: Named(x)) && seen == IdsOf(out)
    ensures r.Some? <==> Distinct(out + page) && forall x <- out + page :: Named(x)
    ensures r.Some? ==> r.value == IdsOf(out + page)
  {
    var ids := seen;
    assert out + page[..0] == out;
    for n := 0 to |page|
      invariant Distinct(out + page[..n]) && forall x <- out + page[..n] :: Named(x)
      invariant ids == IdsOf(out + page[..n])
    {
      assert out + page[..n + 1] == out + page[..n] + [page[n]];
      IdsGrow(out + page[..n], page[n]);
      assert (out + page)[|out| + n] == page[n] && out + page[..n] == (out + page)[..|out| + n];
      if !Named(page[n]) || page[n].id in ids {
        return None;
      }
      ids := ids + {page[n].id};
    }
    assert page[..|page|] == page;
    return Some(ids);
  }

  lemma IdsGrow(rs: seq<Repository>, r: Repository)
    ensures IdsOf(rs + [r]) == IdsOf(rs) + {r.id}
  {
    assert (rs + [r])[|rs|] == r;
    assert forall i | 0 <= i < |rs| :: (rs + [r])[i] == rs[i];
  }

  lemma UrlsGrow(steps: seq<Step>, step: Step)
    ensures Urls(steps + [step]) == Urls(steps) + {step.url}
  {
    assert (steps + [step])[|steps|] == step;
    assert forall i | 0 <= i < |steps| :: (steps + [step])[i] == steps[i];
  }

  lemma NothingRead(fetch: Provider, start: Url)
    ensures Follows(fetch, start, [], More(start)) && Consistent([], 0) && Urls([]) == {} && IdsOf([]) == {}
  {
    NothingYet(Walk(fetch, 0, start));
  }

  /** What is read so far begins the whole reading, which goes on at the next page. */
  ghost predicate Follows(fetch: Provider, start: Url, done: seq<Step>, next: Next) {
    && (forall i | 0 <= i < |done| :: done[i].page.Page?)
    && match next
       case Done => Walk(fetch, 0, start) == Some(done)
       case More(url) => Walk(fetch, 0, start) == Prepended(done, Walk(fetch, |done|, url))
       case Untrusted => Walk(fetch, 0, start) == None
  }

  lemma FollowsStep(fetch: Provider, start: Url, done: seq<Step>, url: Url, page: Answer)
    requires |done| < MAX_PAGES && page == fetch(|done|, url) && Follows(fetch, start, done, More(url))
    ensures page.Failed? ==> !Complete(fetch, start)
    ensures page.Page? ==> Follows(fetch, start, done + [Step(url, page)], page.next)
    ensures page.Page? && page.next.Untrusted? ==> !Complete(fetch, start)
  {
    hide Walk, Consistent, All, Distinct;
    WalkOne(fetch, |done|, url);
    if page.Page? {
      var step := Step(url, page);
      PrependTwice(done, step, Walk(fetch, |done| + 1, if page.next.More? then page.next.url else url));
      assert forall i | 0 <= i < |done| :: (done + [step])[i] == done[i];
    }
  }

  lemma PrependTwice(done: seq<Step>, step: Step, rest: Option<seq<Step>>)
    ensures Prepended(done, Prepended([step], rest)) == Prepended(done + [step], rest)
  {
    if rest.Some? {
      assert done + ([step] + rest.value) == done + [step] + rest.value;
    }
  }

  /** Walk, unfolded once. */
  lemma WalkOne(fetch: Provider, k: nat, url: Url)
    requires k < MAX_PAGES
    ensures var page := fetch(k, url);
            && (page.Failed? || page.next.Untrusted? ==> Walk(fetch, k, url) == None)
            && (page.Page? && page.next.Done? ==> Walk(fetch, k, url) == Some([Step(url, page)]))
            && (page.Page? && page.next.More? ==>
                Walk(fetch, k, url) == Prepended([Step(url, page)], Walk(fetch, k + 1, page.next.url)))
  {
  }

  lemma WalkEnds(fetch: Provider, start: Url, done: seq<Step>, next: Next)
    requires next.More? && |done| >= MAX_PAGES && Follows(fetch, start, done, next)
    ensures !Complete(fetch, start)
  {
  }

  lemma AllRead(fetch: Provider, start: Url, done: seq<Step>)
    requires done != [] && Follows(fetch, start, done, Done) && Consistent(done, done[0].page.total)
    ensures Complete(fetch, start) <==> |All(done)| == done[0].page.total
    ensures Complete(fetch, start) ==> Walk(fetch, 0, start) == Some(done)
  {
    hide Walk, Consistent;
  }

  lemma ConsistentMeans(steps: seq<Step>, total: int)
    requires Consistent(steps, total)
    ensures total >= 0 && forall i | 0 <= i < |steps| :: steps[i].page.Page? && steps[i].page.total == total
    ensures forall i, j | 0 <= i < j < |steps| :: steps[i].url != steps[j].url
  {
  }

  /** A page read before, or one that changes the total, breaks consistency. */
  lemma StepBreaks(done: seq<Step>, step: Step)
    requires step.page.Page? && forall i | 0 <= i < |done| :: done[i].page.Page?
    requires step.url in Urls(done) || step.page.total < 0 || (done != [] && done[0].page.total != step.page.total)
    ensures !Consistent(done + [step], (done + [step])[0].page.total)
  {
    hide Consistent;
    var steps := done + [step];
    assert steps[|done|] == step && forall i | 0 <= i < |done| :: steps[i] == done[i];
    if Consistent(steps, steps[0].page.total) {
      ConsistentMeans(steps, steps[0].page.total);
    }
  }

  /** A new page of the same total keeps consistency exactly when its repositories do. */
  lemma ConsistentStep(done: seq<Step>, step: Step, total: int)
    requires step.page.Page? && step.page.total >= 0 && step.url !in Urls(done)
    requires Consistent(done, if done == [] then 0 else total) && (done != [] ==> step.page.total == total)
    ensures forall i | 0 <= i < |done + [step]| :: (done + [step])[i].page.Page?
    ensures All(done + [step]) == All(done) + step.page.repositories
    ensures Distinct(All(done)) && forall r <- All(done) :: Named(r)
    ensures Consistent(done + [step], step.page.total) <==>
            && Distinct(All(done) + step.page.repositories)
            && (forall r <- All(done) + step.page.repositories :: Named(r))
            && |All(done) + step.page.repositories| <= step.page.total
    ensures (done + [step])[0].page.total == step.page.total
  {
    hide Distinct, Named;
    var steps := done + [step];
    assert steps[|done|] == step && forall i | 0 <= i < |done| :: steps[i] == done[i] && done[i].url in Urls(done);
    assert steps[..|steps| - 1] == done;
  }

  // ----- A complete reading, without the walk -----

  /** The i-th page is the answer to its request and names the next one, or none if it is the last. */
  predicate Linked(fetch: Provider, k: nat, steps: seq<Step>, i: nat)
    requires i < |steps|
  {
    && steps[i].page == fetch(k + i, steps[i].url) && steps[i].page.Page?
    && steps[i].page.next == if i + 1 < |steps| then More(steps[i + 1].url) else Done
  }

  predicate Chain(fetch: Provider, k: nat, url: Url, steps: seq<Step>) {
    && steps != [] && steps[0].url == url
    && forall i | 0 <= i < |steps| :: Linked(fetch, k, steps, i)
  }

  lemma {:induction false} WalkIsChain(fetch: Provider, k: nat, url: Url, steps: seq<Step>)
    ensures Walk(fetch, k, url) == Some(steps) <==> Chain(fetch, k, url, steps) && k + |steps| <= 100
    decreases |steps|
  {
    hide Walk, Chain, Prepended;
    NoEmptyChain(fetch, k, url);
    if steps != [] {
      ChainStep(fetch, k, url, steps);
      if k < MAX_PAGES {
        var page := fetch(k, url);
        WalkOne(fetch, k, url);
        if page.Page? {
          match page.next
          case Done => assert |steps| == 1 ==> steps == [steps[0]];
          case More(next) =>
            WalkIsChain(fetch, k + 1, next, steps[1..]);
            PrependedIs(steps, Step(url, page), Walk(fetch, k + 1, next));
            assert Chain(fetch, k, url, steps) <==>
              steps[0] == Step(url, page) && Chain(fetch, k + 1, next, steps[1..]);
          case Untrusted =>
        }
      } else {
        WalkTooFar(fetch, k, url);
      }
    }
  }

  lemma NoEmptyChain(fetch: Provider, k: nat, url: Url)
    ensures !Chain(fetch, k, url, []) && Walk(fetch, k, url) != Some([])
  {
  }

  lemma WalkTooFar(fetch: Provider, k: nat, url: Url)
    requires k >= MAX_PAGES
    ensures Walk(fetch, k, url) == None
  {
  }

  lemma PrependedIs(steps: seq<Step>, step: Step, rest: Option<seq<Step>>)
    requires steps != []
    ensures Prepended([step], rest) == Some(steps) <==> step == steps[0] && rest == Some(steps[1..])
  {
    assert steps == [steps[0]] + steps[1..];
    if rest.Some? {
      assert ([step] + rest.value)[0] == step && ([step] + rest.value)[1..] == rest.value;
    }
  }

  /** A chain is its first page, alone if that is the last one, and a chain from the next address otherwise. */
  lemma ChainStep(fetch: Provider, k: nat, url: Url, steps: seq<Step>)
    requires steps != []
    ensures var page := fetch(k, url);
            Chain(fetch, k, url, steps) <==>
            && steps[0] == Step(url, page) && page.Page?
            && match page.next
               case Done => |steps| == 1
               case More(next) => Chain(fetch, k + 1, next, steps[1..])
               case Untrusted => false
  {
    var page, rest, later := fetch(k, url), steps[1..], k + 1;
    if Chain(fetch, k, url, steps) {
      assert Linked(fetch, k, steps, 0);
      forall i | 0 <= i < |rest| ensures Linked(fetch, later, rest, i) {
        LinkShifts(fetch, k, steps, i + 1);
      }
    }
    if steps[0] == Step(url, page) && page.Page? && page.next.More? && Chain(fetch, k + 1, page.next.url, rest) {
      forall i | 0 <= i < |steps| ensures Linked(fetch, k, steps, i) {
        if i > 0 {
          LinkShifts(fetch, k, steps, i);
        }
      }
    }
  }

  lemma LinkShifts(fetch: Provider, k: nat, steps: seq<Step>, i: nat)
    requires 0 < i < |steps|
    ensures Linked(fetch, k, steps, i) <==> Linked(fetch, k + 1, steps[1..], i - 1)
  {
    assert k + i == k + 1 + (i - 1);
  }

  /**
   * A reading is complete exactly when at most a hundred pages follow one another from the start, no address
   * comes twice, each page announces as many repositories as there are in all, and these have different ids and
   * an owner and a name; it consists of these repositories, page after page.
   */
  lemma CompleteExactly(fetch: Provider, start: Url)
    ensures Complete(fetch, start) <==> exists steps :: Whole(fetch, start, steps)
    ensures forall steps :: Whole(fetch, start, steps) ==> Walk(fetch, 0, start) == Some(steps)
  {
    hide Chain, Walk;
    if Complete(fetch, start) {
      var steps := Walk(fetch, 0, start).value;
      WalkIsChain(fetch, 0, start, steps);
      var rs := All(steps);
      assert forall i | 0 <= i < |rs| :: rs[i] in rs && Named(rs[i]);
      assert Whole(fetch, start, steps);
    }
    forall steps | Whole(fetch, start, steps)
      ensures Walk(fetch, 0, start) == Some(steps) && Complete(fetch, start)
    {
      WalkIsChain(fetch, 0, start, steps);
    }
  }

  ghost predicate Whole(fetch: Provider, start: Url, steps: seq<Step>) {
    && Chain(fetch, 0, start, steps) && |steps| <= 100
    && (forall i, j | 0 <= i < j < |steps| :: steps[i].url != steps[j].url)
    && (forall i | 0 <= i < |steps| :: steps[i].page.Page?)
    && var rs := All(steps);
       && (forall i | 0 <= i < |steps| :: steps[i].page.total == |rs|)
       && (forall i, j | 0 <= i < j < |rs| :: rs[i].id != rs[j].id)
       && (forall i | 0 <= i < |rs| :: rs[i].id > 0 && |rs[i].owner| > 0 && |rs[i].name| > 0)
  }
}
