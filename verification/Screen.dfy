/**
 * What the user sees: every event's effect, told field by field, and what that means for the rows of the list, the
 * selected issue and its comments over whole runs.
 */
module Screen {
  import opened Bytes
  import opened Desktop

  // ----- What an event is -----

  /** The slug of the selected organisation. */
  function Home(s: State): Option<Slug> {
    if s.identity.Some? && s.workspace < |s.identity.value| then Some(s.identity.value[s.workspace].slug) else None
  }

  /** The person may write in the selected organisation. */
  predicate Writer(s: State) {
    && s.identity.Some? && s.workspace < |s.identity.value|
    && s.identity.value[s.workspace].role in {"admin", "member"}
  }

  /** The reply answers a request that no counter has moved past. */
  predicate Heard(s: State, e: Event) {
    e.OnReply? && e.request in s.pending && !Stale(s, s.pending[e.request])
  }

  function Question(s: State, e: Event): Request
    requires Heard(s, e)
  {
    s.pending[e.request]
  }

  predicate Switches(s: State, e: Event) {
    && e.OnSwitch? && !s.saving && !s.editing && s.identity.Some? && e.index < |s.identity.value|
    && e.index != s.workspace
  }

  predicate SignsOut(s: State, e: Event) {
    Heard(s, e) && Question(s, e).Revoke? && e.reply == Done
  }

  /** The organisation on the screen is left. */
  predicate Leaves(s: State, e: Event) {
    Switches(s, e) || SignsOut(s, e)
  }

  /** The account becomes known. */
  predicate Identifies(s: State, e: Event) {
    && Heard(s, e) && (Question(s, e).Restore? || Question(s, e).Persist?)
    && e.reply.Identified? && e.reply.memberships.Some?
  }

  predicate FirstPage(s: State, e: Event) {
    Heard(s, e) && Question(s, e).List? && !Question(s, e).more && e.reply.Page?
  }

  predicate NextPage(s: State, e: Event) {
    Heard(s, e) && Question(s, e).List? && Question(s, e).more && e.reply.Page?
  }

  /** A form was saved. */
  predicate Saves(s: State, e: Event) {
    Heard(s, e) && Question(s, e).Save? && e.reply.Single?
  }

  /** The selected issue was changed. */
  predicate Changes(s: State, e: Event) {
    Heard(s, e) && Question(s, e).Mutate? && e.reply.Single?
  }

  predicate HasKey(issues: seq<Issue>, key: Key) {
    exists k | 0 <= k < |issues| :: issues[k].key == key
  }

  predicate HasId(issues: seq<Issue>, id: string) {
    exists k | 0 <= k < |issues| :: issues[k].id == id
  }

  /** The issue that is to be opened: one from the screen, a row with the key, or one that was looked up. */
  ghost predicate Opens(s: State, e: Event, issue: Issue) {
    && !s.saving
    && match e
       case OnOpenIssue(i) => issue == i
       case OnOpenKey(key) =>
         exists k | 0 <= k < |s.issues| ::
           s.issues[k].key == key && issue == s.issues[k] && forall j | 0 <= j < k :: s.issues[j].key != key
       case OnReply(_, a) => Heard(s, e) && Question(s, e).Lookup? && a == Single(issue)
       case _ => false
  }

  /** The row with the wanted issue's id, or that issue itself if there is none. */
  predicate Found(issues: seq<Issue>, wanted: Issue, issue: Issue) {
    if HasId(issues, wanted.id) then issue in issues && issue.id == wanted.id else issue == wanted
  }

  ghost predicate OpensNone(s: State, e: Event) {
    forall issue: Issue :: !Opens(s, e, issue)
  }

  ghost predicate PicksNone(s: State, e: Event) {
    forall issue: Issue :: !Picks(s, e, issue)
  }

  /** The issue becomes the selected one, and its details are asked for. */
  ghost predicate Picks(s: State, e: Event, issue: Issue) {
    || (e.OnSelect? && !s.saving && Home(s).Some? && e.index < |s.issues| && issue == s.issues[e.index])
    || (Home(s).Some? && exists wanted: Issue :: Opens(s, e, wanted) && Found(s.issues, wanted, issue))
    || (Saves(s, e) && issue == e.reply.issue)
  }

  /** A list is asked for, in the organisation that is selected afterwards. */
  predicate Refreshes(s: State, e: Event) {
    || (e.OnRefresh? && !s.saving && Home(s).Some?)
    || Switches(s, e)
    || (Identifies(s, e) && s.workspace < |e.reply.memberships.value|)
  }

  predicate Further(e: Event) {
    e.OnRefresh? && e.more
  }

  /** The sprints are asked for, with the list while they are shown or on their own. */
  predicate LoadsSprints(s: State, e: Event) {
    || (Refreshes(s, e) && s.sprintsView && !Further(e))
    || (e.OnShowSprints? && e.none && Home(s).Some?)
  }

  /** A sprint is chosen or given up. */
  predicate Chooses(s: State, e: Event) {
    e.OnSelectSprint? || (Heard(s, e) && Question(s, e).Sprints? && e.reply.DefaultSprint?)
  }

  function Choice(s: State, e: Event): Option<string>
    requires Chooses(s, e)
  {
    if e.OnSelectSprint? then e.id else e.reply.choice
  }

  /** A write begins. */
  predicate Begins(s: State, e: Event) {
    !s.saving &&
    match e
    case OnSave(titled) => Writer(s) && titled
    case OnPost(overlay, blank) =>
      Writer(s) && !overlay && !blank && !s.editing && !s.detailLoading && s.selected.Some?
    case OnMutate(overlay) => Writer(s) && !overlay && !s.editing && !s.detailLoading && s.selected.Some?
    case OnLogOut => s.identity.Some?
    case _ => false
  }

  predicate StartsLogin(s: State, e: Event) {
    e.OnSignIn? && s.identity.None? && !s.loading && e.serverOk
  }

  predicate CancelsLogin(s: State, e: Event) {
    e.OnCancelLogin? && s.identity.None? && s.loading && !s.saving
  }

  predicate OpensForm(s: State, e: Event) {
    && e.OnOpenForm? && Writer(s) && !s.saving && !s.editing && !e.overlay
    && (e.edit ==> s.selected.Some? && !s.detailLoading)
  }

  // ----- What it makes of the screen -----

  /** The rows of a further page that are not there yet, in its order. */
  function Unseen(issues: seq<Issue>, page: seq<Issue>): seq<Issue> {
    if page == [] then []
    else (if HasId(issues, page[0].id) then [] else [page[0]]) + Unseen(issues, page[1..])
  }

  /** The rows with one replaced where its id is. */
  predicate Swapped(before: seq<Issue>, after: seq<Issue>, issue: Issue) {
    && |after| == |before|
    && forall k | 0 <= k < |before| :: after[k] == if before[k].id == issue.id then issue else before[k]
  }

  ghost predicate RowsAfter(s: State, e: Event, t: State) {
    && (FirstPage(s, e) ==> t.issues == e.reply.issues)
    && (NextPage(s, e) ==> t.issues == s.issues + Unseen(s.issues, e.reply.issues))
    && (Saves(s, e) ==> if HasId(s.issues, e.reply.issue.id) then Swapped(s.issues, t.issues, e.reply.issue)
                        else t.issues == [e.reply.issue] + s.issues)
    && (Changes(s, e) ==> Swapped(s.issues, t.issues, e.reply.issue))
    && (Leaves(s, e) ==> t.issues == [])
    && (forall issue: Issue :: Opens(s, e, issue) ==>
          t.issues == if HasId(s.issues, issue.id) then s.issues else s.issues + [issue])
    && (!FirstPage(s, e) && !NextPage(s, e) && !Saves(s, e) && !Changes(s, e) && !Leaves(s, e) && OpensNone(s, e) ==>
          t.issues == s.issues)
    && t.cursor == if FirstPage(s, e) || NextPage(s, e) then e.reply.cursor else if Leaves(s, e) then None else s.cursor
  }

  predicate GetsDetails(s: State, e: Event) {
    Heard(s, e) && Question(s, e).Detail? && e.reply.Details?
  }

  predicate Posts(s: State, e: Event) {
    Heard(s, e) && Question(s, e).Post? && e.reply.Posted?
  }

  ghost predicate DetailAfter(s: State, e: Event, t: State) {
    && (forall issue: Issue :: Picks(s, e, issue) ==> t.selected == Some(issue) && t.comments == [])
    && (GetsDetails(s, e) ==> t.selected == Some(e.reply.issue) && t.comments == e.reply.comments)
    && (Changes(s, e) ==> t.selected == Some(e.reply.issue) && t.comments == s.comments)
    && (Posts(s, e) ==> t.selected == s.selected && t.comments == s.comments + [e.reply.comment])
    && (Leaves(s, e) ==> t.selected.None? && t.comments == [])
    && (PicksNone(s, e) && !GetsDetails(s, e) && !Changes(s, e) && !Posts(s, e) && !Leaves(s, e) ==>
          t.selected == s.selected && t.comments == s.comments)
    && (t.detail == s.detail <==> !Leaves(s, e) && PicksNone(s, e))
    && (t.detailLoading <==>
        || !PicksNone(s, e)
        || (s.detailLoading && !Leaves(s, e) && !(Heard(s, e) && Question(s, e).Detail?)))
  }

  predicate GetsMilestones(s: State, e: Event) {
    Heard(s, e) && Question(s, e).Milestones? && e.reply.MilestonesOf?
  }

  predicate GetsMilestoneIssues(s: State, e: Event) {
    Heard(s, e) && Question(s, e).MilestoneIssues? && e.reply.IssuesOf?
  }

  predicate LosesMilestone(s: State, e: Event) {
    Heard(s, e) && Question(s, e).MilestoneIssues? && e.reply == Failed
  }

  ghost predicate SprintsAfter(s: State, e: Event, t: State) {
    && t.sprint == (if Chooses(s, e) then Choice(s, e) else if Leaves(s, e) then None else s.sprint)
    && t.board == (if Chooses(s, e) || Leaves(s, e) then []
                   else if GetsMilestones(s, e) then e.reply.milestones else s.board)
    && t.milestone == (if Chooses(s, e) || Leaves(s, e) || LosesMilestone(s, e) then None
                       else if e.OnToggleMilestone? then
                         (if s.milestone == Some(e.chosen) then None else Some(e.chosen))
                       else s.milestone)
    && t.milestoneIssues == (if Chooses(s, e) || Leaves(s, e) || e.OnToggleMilestone? then None
                             else if GetsMilestoneIssues(s, e) then Some(e.reply.issues) else s.milestoneIssues)
    && (t.sprints == s.sprints <==>
        !LoadsSprints(s, e) && !Leaves(s, e) && !(Chooses(s, e) && Choice(s, e).Some? && Home(s).Some?))
    && (t.milestones == s.milestones <==> !Chooses(s, e) && !Leaves(s, e) && !e.OnToggleMilestone?)
    && (t.sprintsView <==>
        e.OnShowSprints? || (s.sprintsView && !SignsOut(s, e) && OpensNone(s, e)))
  }

  /** The loading flag is lowered. */
  predicate Settles(s: State, e: Event) {
    || CancelsLogin(s, e) || Begins(s, e) || SignsOut(s, e)
    || (Heard(s, e) && (Question(s, e).Restore? || Question(s, e).Persist? || Question(s, e).List?))
    || (Heard(s, e) && (Question(s, e).Login? || Question(s, e).Poll?) && e.reply == Failed)
  }

  /** The reply of a write, whatever it says. */
  predicate Concludes(s: State, e: Event) {
    && Heard(s, e)
    && (Question(s, e).Persist? || Question(s, e).Save? || Question(s, e).Post? || Question(s, e).Mutate?
        || Question(s, e).Revoke?)
  }

  predicate Granting(s: State, e: Event) {
    Heard(s, e) && Question(s, e).Poll? && e.reply == Granted
  }

  ghost predicate AccountAfter(s: State, e: Event, t: State) {
    && t.identity == (if Identifies(s, e) then e.reply.memberships else if SignsOut(s, e) then None else s.identity)
    && t.workspace == (if Switches(s, e) then e.index else if SignsOut(s, e) then 0 else s.workspace)
    && t.session == s.session + (if StartsLogin(s, e) || CancelsLogin(s, e) || Leaves(s, e) then 1 else 0)
    && (t.list == s.list <==> !Refreshes(s, e) && !Begins(s, e) && !SignsOut(s, e))
    && (t.loading <==> StartsLogin(s, e) || Refreshes(s, e) || (s.loading && !Settles(s, e)))
    && (t.saving <==> Begins(s, e) || Granting(s, e) || (s.saving && !Concludes(s, e)))
    && (t.editing <==>
        || OpensForm(s, e)
        || (s.editing && !Saves(s, e) && !SignsOut(s, e) && !(e.OnCloseForm? && !s.saving)))
    && t.editKey == (if OpensForm(s, e) then (if e.edit then Some(s.selected.value.key) else None)
                     else if SignsOut(s, e) then None else s.editKey)
  }

  /** The counters only rise. */
  predicate Rises(s: State, t: State) {
    && s.session <= t.session && s.list <= t.list && s.detail <= t.detail
    && s.sprints <= t.sprints && s.milestones <= t.milestones && s.sent <= t.sent
  }

  // ----- What it asks -----

  /** The request is new. */
  ghost predicate Sends(s: State, t: State, r: Request) {
    exists k | s.sent <= k < t.sent :: k in t.pending && t.pending[k] == r
  }

  /** Each request there is a reason for is sent, with the counters as they are afterwards, and no other. */
  ghost predicate AsksAfter(s: State, e: Event, t: State) {
    && (forall r: Request :: Sends(s, t, r) <==> Reason(s, e, t, r))
    && (forall k :: k in t.pending && k < s.sent <==> k in s.pending && !(e.OnReply? && k == e.request))
    && (forall k :: k in t.pending && k < s.sent ==> t.pending[k] == s.pending[k])
    && (forall k <- t.pending :: k < t.sent)
  }

  ghost predicate Reason(s: State, e: Event, t: State, r: Request) {
    match r
    case Restore(_) => false
    case Login(session) => StartsLogin(s, e) && session == t.session
    case Poll(session) =>
      && Heard(s, e) && session == s.session
      && ((Question(s, e).Login? && e.reply == Started) || (Question(s, e).Poll? && e.reply == Waiting))
    case Persist(session) => Granting(s, e) && session == s.session
    case List(session, list, home, more) =>
      Refreshes(s, e) && session == t.session && list == t.list && Home(t) == Some(home) && (more <==> Further(e))
    case Detail(session, detail, home, key) =>
      && session == t.session && detail == t.detail && Home(s) == Some(home)
      && exists issue: Issue :: Picks(s, e, issue) && issue.key == key
    case Lookup(session, home, key) =>
      e.OnOpenKey? && !HasKey(s.issues, e.key) && session == s.session && Home(s) == Some(home) && key == e.key
    case Sprints(session, sprints, home) =>
      LoadsSprints(s, e) && session == t.session && sprints == t.sprints && Home(t) == Some(home)
    case Milestones(session, sprints, home, sprint) =>
      && Chooses(s, e) && Choice(s, e) == Some(sprint)
      && session == t.session && sprints == t.sprints && Home(s) == Some(home)
    case MilestoneIssues(session, milestones, home, milestone) =>
      && e.OnToggleMilestone? && s.milestone != Some(e.chosen) && milestone == e.chosen
      && session == t.session && milestones == t.milestones && Home(s) == Some(home)
    case Save(session, home, edited) =>
      Begins(s, e) && e.OnSave? && session == s.session && Home(s) == Some(home) && edited == s.editKey
    case Post(session, detail, home, key) =>
      && Begins(s, e) && e.OnPost? && session == s.session && detail == s.detail && Home(s) == Some(home)
      && s.selected.Some? && key == s.selected.value.key
    case Mutate(session, detail, home, key) =>
      && Begins(s, e) && e.OnMutate? && session == s.session && detail == s.detail && Home(s) == Some(home)
      && s.selected.Some? && key == s.selected.value.key
    case Revoke => Begins(s, e) && e.OnLogOut?
  }

  // ----- Small facts -----

  lemma CurrentIsHeard(s: State, k: nat)
    requires Tracked(s) && k in s.pending
    ensures Current(s, s.pending[k]) <==> !Stale(s, s.pending[k])
  {
    assert Fits(s, s.pending[k]);
  }

  lemma SluggedIsHome(s: State)
    ensures Slugged(s) == Home(s) && CanWrite(s) == Writer(s)
  {
  }

  lemma {:induction false} FirstWithKeyIsFirst(issues: seq<Issue>, key: Key) returns (k: nat)
    requires HasKey(issues, key)
    ensures k < |issues| && issues[k].key == key && FirstWithKey(issues, key) == issues[k]
    ensures forall j | 0 <= j < k :: issues[j].key != key
  {
    if issues[0].key == key {
      k := 0;
    } else {
      var i :| 0 <= i < |issues| && issues[i].key == key;
      assert issues[1..][i - 1] == issues[i];
      k := FirstWithKeyIsFirst(issues[1..], key);
      k := k + 1;
      assert issues == [issues[0]] + issues[1..];
    }
  }

  lemma {:induction false} ExtendedIsUnseen(issues: seq<Issue>, page: seq<Issue>)
    requires Distinct(page)
    ensures Extended(issues, page) == issues + Unseen(issues, page)
  {
    hide Unseen, HasId;
    if page == [] {
      UnseenNone(issues);
    } else {
      var front, last := page[..|page| - 1], page[|page| - 1];
      ExtendedIsUnseen(issues, front);
      UnseenAppends(issues, front, last);
      assert page == front + [last];
      NewToAll(issues, front, last);
      HasIdIs(issues + Unseen(issues, front), last.id);
    }
  }

  lemma UnseenNone(issues: seq<Issue>)
    ensures Unseen(issues, []) == []
  {
  }

  lemma HasIdIs(issues: seq<Issue>, id: string)
    ensures HasId(issues, id) <==> IndexOf(issues, id).Some?
  {
  }

  /** A row of the page that is in none of the rows before it is new exactly if it was not there at first. */
  lemma NewToAll(issues: seq<Issue>, front: seq<Issue>, last: Issue)
    requires forall row <- front :: row.id != last.id
    ensures HasId(issues + Unseen(issues, front), last.id) <==> HasId(issues, last.id)
  {
    hide Unseen;
    UnseenIds(issues, front);
    var before := issues + Unseen(issues, front);
    forall k | |issues| <= k < |before| ensures before[k].id != last.id {
      assert before[k] in Unseen(issues, front);
    }
    if HasId(issues, last.id) {
      var k :| 0 <= k < |issues| && issues[k].id == last.id;
      assert before[k].id == last.id;
    }
  }

  lemma {:induction false} UnseenAppends(issues: seq<Issue>, front: seq<Issue>, last: Issue)
    ensures Unseen(issues, front + [last]) == Unseen(issues, front) + if HasId(issues, last.id) then [] else [last]
  {
    hide HasId;
    var page := front + [last];
    if front == [] {
      assert page == [last] && page[1..] == [];
      UnseenNone(issues);
    } else {
      assert page[1..] == front[1..] + [last] && page[0] == front[0];
      UnseenAppends(issues, front[1..], last);
      var head := if HasId(issues, front[0].id) then [] else [front[0]];
      assert Unseen(issues, page) == head + Unseen(issues, page[1..]);
      assert Unseen(issues, front) == head + Unseen(issues, front[1..]);
    }
  }

  lemma {:induction false} UnseenIds(issues: seq<Issue>, page: seq<Issue>)
    ensures forall row <- Unseen(issues, page) :: row in page && !HasId(issues, row.id)
    ensures forall row <- page :: HasId(issues, row.id) || row in Unseen(issues, page)
  {
    if page != [] {
      UnseenIds(issues, page[1..]);
      assert page == [page[0]] + page[1..];
    }
  }

  lemma ReplacedIsSwapped(issues: seq<Issue>, issue: Issue)
    requires Distinct(issues)
    ensures Swapped(issues, Replaced(issues, issue), issue)
    ensures HasId(issues, issue.id) <==> IndexOf(issues, issue.id).Some?
  {
  }

  // ----- Which fields a handler may touch -----

  predicate SameRows(s: State, t: State) {
    t.issues == s.issues && t.cursor == s.cursor
  }

  predicate SameDetail(s: State, t: State) {
    t.selected == s.selected && t.comments == s.comments && t.detail == s.detail && t.detailLoading == s.detailLoading
  }

  predicate SameBoard(s: State, t: State) {
    && t.sprint == s.sprint && t.board == s.board && t.milestone == s.milestone
    && t.milestoneIssues == s.milestoneIssues && t.milestones == s.milestones
  }

  predicate SamePerson(s: State, t: State) {
    t.identity == s.identity && t.workspace == s.workspace && t.session == s.session
  }

  predicate SameForm(s: State, t: State) {
    t.editing == s.editing && t.editKey == s.editKey
  }

  predicate SameLoading(s: State, t: State) {
    t.list == s.list && t.loading == s.loading
  }

  /** Sending touches nothing on the screen. */
  lemma SendTouches(s: State, r: Request)
    ensures var t := Send(s, r);
            && SameRows(s, t) && SameDetail(s, t) && SameBoard(s, t) && SameForm(s, t) && SamePerson(s, t)
            && SameLoading(s, t) && t.saving == s.saving && t.sprintsView == s.sprintsView && t.sprints == s.sprints
  {
  }

  lemma SignInTouches(s: State, ok: bool)
    ensures forall t | t == SignIn(s, ok) || t == CancelLogin(s) ::
              && SameRows(s, t) && SameDetail(s, t) && SameBoard(s, t) && SameForm(s, t)
              && t.sprints == s.sprints && t.sprintsView == s.sprintsView && t.saving == s.saving && t.list == s.list
              && t.identity == s.identity && t.workspace == s.workspace
  {
  }

  lemma LoadSprintsTouches(s: State)
    ensures var t := LoadSprints(s);
            && SameRows(s, t) && SameDetail(s, t) && SameBoard(s, t) && SameForm(s, t) && SamePerson(s, t)
            && SameLoading(s, t) && t.saving == s.saving && t.sprintsView == s.sprintsView
            && t.sprints == s.sprints + if Home(s).Some? then 1 else 0
  {
  }

  lemma RefreshTouches(s: State, more: bool)
    ensures var t := Refresh(s, more);
            && SameRows(s, t) && SameDetail(s, t) && SameBoard(s, t) && SameForm(s, t) && SamePerson(s, t)
            && t.saving == s.saving && t.sprintsView == s.sprintsView
            && (if !s.saving && Home(s).Some? then
                  t.list == s.list + 1 && t.loading && t.sprints == s.sprints + if s.sprintsView && !more then 1 else 0
                else t == s)
  {
    hide LoadSprints, Slugged;
    SluggedIsHome(s);
    LoadSprintsTouches(s);
  }

  lemma SelectIssueTouches(s: State, index: nat)
    ensures var t := SelectIssue(s, index);
            && SameRows(s, t) && SameBoard(s, t) && SameForm(s, t) && SamePerson(s, t) && SameLoading(s, t)
            && t.saving == s.saving && t.sprintsView == s.sprintsView && t.sprints == s.sprints
            && (if index < |s.issues| && !s.saving && Home(s).Some? then
                  t.selected == Some(s.issues[index]) && t.comments == [] && t.detail == s.detail + 1 && t.detailLoading
                else t == s)
  {
  }

  lemma OpenIssueTouches(s: State, issue: Issue)
    ensures var t := OpenIssue(s, issue);
            && t.cursor == s.cursor && SameBoard(s, t) && SameForm(s, t) && SamePerson(s, t) && SameLoading(s, t)
            && t.saving == s.saving && t.sprints == s.sprints && t.sprintsView == (s.saving && s.sprintsView)
            && t.issues == (if s.saving || HasId(s.issues, issue.id) then s.issues else s.issues + [issue])
            && (if !s.saving && Home(s).Some? then
                  && t.selected.Some? && Found(s.issues, issue, t.selected.value)
                  && t.comments == [] && t.detail == s.detail + 1 && t.detailLoading
                else SameDetail(s, t))
  {
    hide SelectIssue, IndexOf, HasId, Home;
    HasIdIs(s.issues, issue.id);
    var t := s.(sprintsView := false);
    var u := t.(issues := s.issues + [issue]);
    HomeOf(s, t);
    HomeOf(s, u);
    match IndexOf(s.issues, issue.id)
    case Some(k) => SelectIssueTouches(t, k);
    case None => SelectIssueTouches(u, |s.issues|);
  }

  lemma HomeOf(s: State, t: State)
    requires t.identity == s.identity && t.workspace == s.workspace
    ensures Home(t) == Home(s)
  {
  }

  lemma OpenIssueKeyTouches(s: State, key: Key)
    ensures !HasKey(s.issues, key) ==>
              var t := OpenIssueKey(s, key);
              && SameRows(s, t) && SameDetail(s, t) && SameBoard(s, t) && SameForm(s, t) && SamePerson(s, t)
              && SameLoading(s, t) && t.saving == s.saving && t.sprintsView == s.sprintsView && t.sprints == s.sprints
    ensures HasKey(s.issues, key) ==> OpenIssueKey(s, key) == OpenIssue(s, FirstWithKey(s.issues, key))
  {
    hide OpenIssue;
  }

  /** A write leaves the rest of the screen alone. */
  predicate Touched(s: State, t: State) {
    && SameRows(s, t) && SameDetail(s, t) && SameBoard(s, t) && SameForm(s, t) && SamePerson(s, t)
    && t.sprintsView == s.sprintsView && t.sprints == s.sprints
  }

  lemma WriteTouches(s: State, r: Request)
    ensures var t := Write(s, r); Touched(s, t) && t.list == s.list + 1 && !t.loading && t.saving
    ensures Touched(s, s)
  {
  }

  lemma WritesTouch(s: State, e: Event)
    requires Enabled(s, e) && (e.OnSave? || e.OnPost? || e.OnMutate? || e.OnLogOut?)
    ensures var t := Next(s, e);
            Touched(s, t) && if Begins(s, e) then t.list == s.list + 1 && !t.loading && t.saving else t == s
  {
    hide Touched, Write;
    SluggedIsHome(s);
    forall r: Request | true
      ensures Touched(s, Write(s, r)) && Write(s, r).list == s.list + 1 && !Write(s, r).loading && Write(s, r).saving
    {
      WriteTouches(s, r);
    }
    WriteTouches(s, Revoke);
  }

  lemma FormsTouch(s: State, edit: bool, overlay: bool)
    ensures forall t | t == OpenForm(s, edit, overlay) || t == CloseForm(s) ::
              && SameRows(s, t) && SameDetail(s, t) && SameBoard(s, t) && SamePerson(s, t) && SameLoading(s, t)
              && t.saving == s.saving && t.sprintsView == s.sprintsView && t.sprints == s.sprints
  {
  }

  lemma ShowSprintsTouches(s: State, none: bool)
    ensures var t := ShowSprints(s, none);
            && SameRows(s, t) && SameDetail(s, t) && SameBoard(s, t) && SameForm(s, t) && SamePerson(s, t)
            && SameLoading(s, t) && t.saving == s.saving && t.sprintsView
            && t.sprints == s.sprints + if none && Home(s).Some? then 1 else 0
  {
    hide LoadSprints, Home;
    HomeOf(s, s.(sprintsView := true));
    LoadSprintsTouches(s.(sprintsView := true));
  }

  lemma SelectSprintTouches(s: State, id: Option<string>)
    ensures var t := SelectSprint(s, id);
            && SameRows(s, t) && SameDetail(s, t) && SameForm(s, t) && SamePerson(s, t) && SameLoading(s, t)
            && t.saving == s.saving && t.sprintsView == s.sprintsView
            && t.sprint == id && t.board == [] && t.milestone.None? && t.milestoneIssues.None?
            && t.milestones == s.milestones + 1
            && t.sprints == s.sprints + if id.Some? && Home(s).Some? then 1 else 0
  {
    hide Slugged, Home, Send;
    SluggedIsHome(s);
    var t := s.(milestones := s.milestones + 1, milestone := None, milestoneIssues := None, sprint := id, board := []);
    if id.Some? && Slugged(s).Some? {
      SendTouches(t.(sprints := t.sprints + 1), Milestones(t.session, t.sprints + 1, Slugged(s).value, id.value));
    }
  }

  lemma ToggleTouches(s: State, id: string)
    ensures var t := ToggleMilestone(s, id);
            && SameRows(s, t) && SameDetail(s, t) && SameForm(s, t) && SamePerson(s, t) && SameLoading(s, t)
            && t.saving == s.saving && t.sprintsView == s.sprintsView && t.sprints == s.sprints
            && t.sprint == s.sprint && t.board == s.board && t.milestones == s.milestones + 1
            && t.milestoneIssues.None? && t.milestone == if s.milestone == Some(id) then None else Some(id)
  {
    hide Slugged, Send;
    var t := s.(milestones := s.milestones + 1, milestoneIssues := None);
    if s.milestone == Some(id) {
      assert ToggleMilestone(s, id) == t.(milestone := None);
    } else if Slugged(s).None? {
      assert ToggleMilestone(s, id) == t.(milestone := Some(id));
    } else {
      SendTouches(t.(milestone := Some(id)), MilestoneIssues(t.session, t.milestones, Slugged(s).value, id));
    }
  }

  /** The fields that belong to the organisation on the screen, emptied. */
  predicate Blank(s: State) {
    && s.issues == [] && s.cursor.None? && s.selected.None? && s.comments == [] && !s.detailLoading
    && s.sprint.None? && s.board == [] && s.milestone.None? && s.milestoneIssues.None?
  }

  lemma SwitchTouches(s: State, index: nat)
    ensures var t := SwitchWorkspace(s, index);
            if Switches(s, OnSwitch(index)) then
              && Blank(t) && t.identity == s.identity && t.workspace == index && t.session == s.session + 1
              && t.detail == s.detail + 1 && t.milestones == s.milestones + 1 && t.sprints > s.sprints
              && t.list > s.list
              && t.loading && t.saving == s.saving && t.editing == s.editing && t.editKey == s.editKey
              && t.sprintsView == s.sprintsView
            else t == s
  {
    hide Refresh;
    if Switches(s, OnSwitch(index)) {
      var u := Emptied(s.(workspace := index));
      RefreshTouches(u, false);
    }
  }

  lemma SavedTouches(s: State, issue: Issue)
    requires Distinct(s.issues) && !s.saving && Home(s).Some?
    ensures var t := Saved(s, issue);
            && t.cursor == s.cursor && SameBoard(s, t) && SamePerson(s, t) && SameLoading(s, t)
            && t.saving == s.saving && t.sprintsView == s.sprintsView && t.sprints == s.sprints
            && !t.editing && t.editKey == s.editKey
            && t.selected == Some(issue) && t.comments == [] && t.detail == s.detail + 2 && t.detailLoading
            && if HasId(s.issues, issue.id) then Swapped(s.issues, t.issues, issue) else t.issues == [issue] + s.issues
  {
    hide SelectIssue, IndexOf, HasId, Replaced, Swapped, Home;
    HasIdIs(s.issues, issue.id);
    ReplacedIsSwapped(s.issues, issue);
    var rows := if IndexOf(s.issues, issue.id).Some? then Replaced(s.issues, issue) else [issue] + s.issues;
    var t := s.(issues := rows, selected := Some(issue), detail := s.detail + 1, comments := [], detailLoading := false,
                editing := false);
    HomeOf(s, t);
    SavedRow(s.issues, rows, issue);
    SelectIssueTouches(t, IndexOf(rows, issue.id).value);
  }

  /** The saved issue is the row found by its id. */
  lemma SavedRow(issues: seq<Issue>, rows: seq<Issue>, issue: Issue)
    requires Distinct(issues)
    requires rows == if IndexOf(issues, issue.id).Some? then Replaced(issues, issue) else [issue] + issues
    ensures IndexOf(rows, issue.id).Some? && rows[IndexOf(rows, issue.id).value] == issue
  {
    if IndexOf(issues, issue.id).Some? {
      assert rows[IndexOf(issues, issue.id).value] == issue;
    } else {
      assert rows[0] == issue;
    }
  }

  lemma SignedOutTouches(s: State)
    ensures var t := SignedOut(s);
            && Blank(t) && t.identity.None? && t.workspace == 0 && t.session == s.session + 1 && t.list == s.list + 1
            && t.detail == s.detail + 1 && t.sprints == s.sprints + 1 && t.milestones == s.milestones + 1
            && !t.editing && t.editKey.None? && !t.sprintsView && !t.loading
            && t.saving == s.saving && t.pending == s.pending && t.sent == s.sent
  {
  }

  // ----- Rows -----

  /** The reply is accepted, once its request is no longer under way. */
  lemma ArriveIs(s: State, e: Event)
    requires Tracked(s) && Enabled(s, e) && e.OnReply?
    ensures var u := s.(pending := s.pending - {e.request});
            Next(s, e) == if Heard(s, e) then Accepted(u, s.pending[e.request], e.reply) else u
  {
    hide Tracked, Accepted, Stale, Current, Honest;
    CurrentIsHeard(s, e.request);
  }

  /** What may be replied, and to whom it matters. */
  lemma RowsOfReply(s: State, e: Event)
    requires Sound(s) && Enabled(s, e) && e.OnReply?
    ensures RowsAfter(s, e, Next(s, e))
  {
    hide Tracked, Awaited, Accepted, Stale, Current, Honest, RowsAfter, Next;
    ArriveIs(s, e);
    var r := s.pending[e.request];
    if !Heard(s, e) {
      RowsUnheard(s, e);
    } else if r.List? {
      RowsOfList(s, e);
    } else if r.Lookup? {
      RowsOfLookup(s, e);
    } else if r.Save? || r.Mutate? {
      WriteHasHome(s, e.request);
      RowsOfWrite(s, e);
    } else if r.Revoke? {
      RowsOfRevoke(s, e);
    } else {
      RowsOfOther(s, e);
    }
  }

  lemma WriteHasHome(s: State, k: nat)
    requires Tracked(s) && k in s.pending && (s.pending[k].Save? || s.pending[k].Post? || s.pending[k].Mutate?)
    ensures Home(s) == Some(s.pending[k].home) && s.saving
  {
    assert Fits(s, s.pending[k]);
  }

  lemma RowsUnheard(s: State, e: Event)
    requires e.OnReply? && !Heard(s, e)
    ensures RowsAfter(s, e, s.(pending := s.pending - {e.request}))
  {
    hide Stale;
  }

  lemma RowsOfList(s: State, e: Event)
    requires Heard(s, e) && Question(s, e).List? && Honest(Question(s, e), e.reply)
    ensures RowsAfter(s, e, Accepted(s.(pending := s.pending - {e.request}), Question(s, e), e.reply))
  {
    hide Stale, Extended, Unseen;
    if e.reply.Page? {
      ExtendedIsUnseen(s.issues, e.reply.issues);
    }
  }

  lemma RowsOfLookup(s: State, e: Event)
    requires Heard(s, e) && Question(s, e).Lookup? && Honest(Question(s, e), e.reply)
    ensures RowsAfter(s, e, Accepted(s.(pending := s.pending - {e.request}), Question(s, e), e.reply))
  {
    hide Stale, OpenIssue, HasId;
    if e.reply.Single? {
      OpenIssueTouches(s.(pending := s.pending - {e.request}), e.reply.issue);
      assert s.saving || Opens(s, e, e.reply.issue);
    }
  }

  lemma RowsOfWrite(s: State, e: Event)
    requires Heard(s, e) && (Question(s, e).Save? || Question(s, e).Mutate?) && Honest(Question(s, e), e.reply)
    requires Distinct(s.issues) && Home(s).Some?
    ensures RowsAfter(s, e, Accepted(s.(pending := s.pending - {e.request}), Question(s, e), e.reply))
  {
    hide Heard, Honest, RowsAfter, Accepted, Home;
    if Question(s, e).Save? {
      RowsOfSave(s, e);
    } else {
      RowsOfMutate(s, e);
    }
  }

  lemma RowsOfSave(s: State, e: Event)
    requires Heard(s, e) && Question(s, e).Save? && Honest(Question(s, e), e.reply)
    requires Distinct(s.issues) && Home(s).Some?
    ensures RowsAfter(s, e, Accepted(s.(pending := s.pending - {e.request}), Question(s, e), e.reply))
  {
    hide Stale, IndexOf, HasId, Swapped, Replaced, Saved;
    var u := s.(pending := s.pending - {e.request});
    if e.reply.Single? {
      SavedTouches(u.(saving := false), e.reply.issue);
    }
  }

  lemma RowsOfMutate(s: State, e: Event)
    requires Heard(s, e) && Question(s, e).Mutate? && Honest(Question(s, e), e.reply)
    requires Distinct(s.issues)
    ensures RowsAfter(s, e, Accepted(s.(pending := s.pending - {e.request}), Question(s, e), e.reply))
  {
    hide Stale, HasId, Swapped, Replaced;
    if e.reply.Single? {
      ReplacedIsSwapped(s.issues, e.reply.issue);
    }
  }

  lemma RowsOfRevoke(s: State, e: Event)
    requires Heard(s, e) && Question(s, e).Revoke? && Honest(Question(s, e), e.reply)
    ensures RowsAfter(s, e, Accepted(s.(pending := s.pending - {e.request}), Question(s, e), e.reply))
  {
    hide Stale, SignedOut;
    SignedOutTouches(s.(pending := s.pending - {e.request}, saving := false));
  }

  /** Any other reply leaves the rows alone. */
  lemma RowsOfOther(s: State, e: Event)
    requires Heard(s, e) && Honest(Question(s, e), e.reply)
    requires var r := Question(s, e); !(r.List? || r.Lookup? || r.Save? || r.Mutate? || r.Revoke?)
    ensures RowsAfter(s, e, Accepted(s.(pending := s.pending - {e.request}), Question(s, e), e.reply))
  {
    hide Stale, Accepted;
    OtherTouches(s.(pending := s.pending - {e.request}), Question(s, e), e.reply);
  }

  lemma OtherTouches(s: State, r: Request, a: Reply)
    requires Honest(r, a) && !(r.List? || r.Lookup? || r.Save? || r.Mutate? || r.Revoke?)
    ensures SameRows(s, Accepted(s, r, a))
  {
    hide Refresh, SelectSprint, OpenIssue, Saved, SignedOut, Extended, Replaced;
    if r.Restore? || r.Persist? {
      hide SameRows;
      IdentifyTouches(s, r, a);
    } else if a.DefaultSprint? {
      SelectSprintTouches(s, a.choice);
    }
  }

  /** What the reply that ends a sign-in leaves. */
  lemma IdentifyTouches(s: State, r: Request, a: Reply)
    requires Honest(r, a) && (r.Restore? || r.Persist?)
    ensures var t := Accepted(s, r, a);
            && SameRows(s, t) && SameDetail(s, t) && SameBoard(s, t) && SameForm(s, t)
            && t.workspace == s.workspace && t.session == s.session && t.sprintsView == s.sprintsView
            && t.saving == (s.saving && r.Restore?)
            && t.identity == (if a.Identified? && a.memberships.Some? then a.memberships else s.identity)
            && var asks := a.Identified? && a.memberships.Some? && !t.saving && Home(t).Some?;
               && t.list == s.list + (if asks then 1 else 0) && t.loading == asks
               && t.sprints == s.sprints + if asks && s.sprintsView then 1 else 0
  {
    hide Refresh, Home, OpenIssue, SelectSprint, Saved, SignedOut, Extended, Replaced;
    if a.Identified? && a.memberships.Some? {
      var u := s.(loading := false, saving := s.saving && r.Restore?, identity := a.memberships);
      RefreshTouches(u, false);
      HomeOf(u, Refresh(u, false));
    }
  }

  /** Opening an issue adds it exactly if it has no row. */
  lemma RowsOfOpening(s: State, e: Event)
    requires Enabled(s, e) && e.OnOpenIssue?
    ensures RowsAfter(s, e, Next(s, e))
  {
    hide OpenIssue, HasId;
    OpenIssueTouches(s, e.issue);
    assert s.saving || Opens(s, e, e.issue);
  }

  lemma RowsOfOpeningKey(s: State, e: Event)
    requires Enabled(s, e) && e.OnOpenKey?
    ensures RowsAfter(s, e, Next(s, e))
  {
    hide OpenIssue, OpenIssueKey, FirstWithKey, HasId;
    OpenIssueKeyTouches(s, e.key);
    if HasKey(s.issues, e.key) {
      var k := FirstWithKeyIsFirst(s.issues, e.key);
      OpenIssueTouches(s, s.issues[k]);
      OpensRow(s, e, k);
    } else {
      assert OpensNone(s, e);
    }
  }

  /** Opening by key opens the first row with it. */
  lemma OpensRow(s: State, e: Event, k: nat)
    requires e.OnOpenKey? && k < |s.issues| && s.issues[k].key == e.key
    requires forall j | 0 <= j < k :: s.issues[j].key != e.key
    ensures forall issue: Issue :: Opens(s, e, issue) <==> !s.saving && issue == s.issues[k]
    ensures OpensNone(s, e) <==> s.saving
  {
    assert s.saving || Opens(s, e, s.issues[k]);
  }

  lemma RowsOfAction(s: State, e: Event)
    requires Enabled(s, e) && !e.OnReply?
    ensures RowsAfter(s, e, Next(s, e))
  {
    if e.OnOpenIssue? {
      RowsOfOpening(s, e);
    } else if e.OnOpenKey? {
      RowsOfOpeningKey(s, e);
    } else {
      hide SignIn, CancelLogin, Refresh, SelectIssue, SwitchWorkspace, OpenForm, CloseForm, SaveIssue, PostUpdate,
        MutateIssue, LogOut, ShowSprints, SelectSprint, ToggleMilestone;
      if e.OnSwitch? { SwitchTouches(s, e.index); } else { ActionTouches(s, e); }
    }
  }

  /** Actions other than opening an issue and changing the organisation leave the rows alone. */
  lemma ActionTouches(s: State, e: Event)
    requires Enabled(s, e) && !e.OnReply? && !e.OnOpenIssue? && !e.OnOpenKey? && !e.OnSwitch?
    ensures var t := Next(s, e); t.issues == s.issues && t.cursor == s.cursor
  {
    hide SignIn, CancelLogin, Refresh, SelectIssue, SwitchWorkspace, OpenForm, CloseForm, SaveIssue, PostUpdate,
      MutateIssue, LogOut, ShowSprints, SelectSprint, ToggleMilestone;
    match e
    case OnSignIn(ok) => SignInTouches(s, ok);
    case OnCancelLogin => SignInTouches(s, true);
    case OnRefresh(more) => RefreshTouches(s, more);
    case OnSelect(index) => SelectIssueTouches(s, index);
    case OnOpenForm(edit, overlay) => FormsTouch(s, edit, overlay);
    case OnCloseForm => FormsTouch(s, false, false);
    case OnSave(titled) => WritesTouch(s, e);
    case OnPost(overlay, blank) => WritesTouch(s, e);
    case OnMutate(overlay) => WritesTouch(s, e);
    case OnLogOut => WritesTouch(s, e);
    case OnShowSprints(none) => ShowSprintsTouches(s, none);
    case OnSelectSprint(id) => SelectSprintTouches(s, id);
    case OnToggleMilestone(id) => ToggleTouches(s, id);
  }

  // ----- The selected issue -----

  lemma DetailOfAction(s: State, e: Event)
    requires Distinct(s.issues) && Enabled(s, e) && !e.OnReply?
    ensures DetailAfter(s, e, Next(s, e))
  {
    if e.OnOpenIssue? {
      DetailOfOpening(s, e);
    } else if e.OnOpenKey? {
      DetailOfOpeningKey(s, e);
    } else if e.OnSelect? {
      DetailOfSelect(s, e);
    } else if e.OnSwitch? {
      DetailOfSwitch(s, e);
    } else {
      hide SignIn, CancelLogin, Refresh, SelectIssue, SwitchWorkspace, OpenForm, CloseForm, SaveIssue, PostUpdate,
        MutateIssue, LogOut, ShowSprints, SelectSprint, ToggleMilestone, Home;
      assert PicksNone(s, e) by { NothingOpens(s, e); }
      DetailUntouched(s, e);
    }
  }

  lemma NothingOpens(s: State, e: Event)
    requires !e.OnReply? && !e.OnOpenIssue? && !e.OnOpenKey?
    ensures OpensNone(s, e) && (!e.OnSelect? ==> PicksNone(s, e))
  {
  }

  lemma DetailUntouched(s: State, e: Event)
    requires Enabled(s, e) && !e.OnReply? && !e.OnOpenIssue? && !e.OnOpenKey? && !e.OnSwitch? && !e.OnSelect?
    ensures SameDetail(s, Next(s, e))
  {
    hide SignIn, CancelLogin, Refresh, SelectIssue, SwitchWorkspace, OpenForm, CloseForm, SaveIssue, PostUpdate,
      MutateIssue, LogOut, ShowSprints, SelectSprint, ToggleMilestone, SameDetail;
    match e
    case OnSignIn(ok) => SignInTouches(s, ok);
    case OnCancelLogin => SignInTouches(s, true);
    case OnRefresh(more) => RefreshTouches(s, more);
    case OnOpenForm(edit, overlay) => FormsTouch(s, edit, overlay);
    case OnCloseForm => FormsTouch(s, false, false);
    case OnSave(_) => WritesTouch(s, e);
    case OnPost(_, _) => WritesTouch(s, e);
    case OnMutate(_) => WritesTouch(s, e);
    case OnLogOut => WritesTouch(s, e);
    case OnShowSprints(none) => ShowSprintsTouches(s, none);
    case OnSelectSprint(id) => SelectSprintTouches(s, id);
    case OnToggleMilestone(id) => ToggleTouches(s, id);
  }

  lemma DetailOfSelect(s: State, e: Event)
    requires e.OnSelect?
    ensures DetailAfter(s, e, Next(s, e))
  {
    hide SelectIssue, Home;
    SelectIssueTouches(s, e.index);
    NothingOpens(s, e);
    if !s.saving && Home(s).Some? && e.index < |s.issues| {
      assert Picks(s, e, s.issues[e.index]);
    }
  }

  lemma DetailOfSwitch(s: State, e: Event)
    requires e.OnSwitch?
    ensures DetailAfter(s, e, Next(s, e))
  {
    hide SwitchWorkspace, Home;
    SwitchTouches(s, e.index);
    NothingOpens(s, e);
  }

  /** What is picked when something is opened. */
  lemma PicksFound(s: State, e: Event, wanted: Issue, found: Issue)
    requires Distinct(s.issues) && Found(s.issues, wanted, found) && !e.OnSelect? && !Saves(s, e)
    requires forall issue: Issue :: Opens(s, e, issue) <==> !s.saving && issue == wanted
    ensures forall issue: Issue :: Picks(s, e, issue) <==> !s.saving && Home(s).Some? && issue == found
  {
    hide Opens, Saves, Home;
    assert Opens(s, e, wanted) <==> !s.saving;
  }

  lemma DetailOfOpening(s: State, e: Event)
    requires Distinct(s.issues) && Enabled(s, e) && e.OnOpenIssue?
    ensures DetailAfter(s, e, Next(s, e))
  {
    hide OpenIssue, Home, Found;
    OpenIssueTouches(s, e.issue);
    if !s.saving && Home(s).Some? {
      OpenedDetail(s, e, e.issue, Next(s, e));
    } else {
      assert PicksNone(s, e);
    }
  }

  /** The issue found is selected and its details are awaited. */
  lemma OpenedDetail(s: State, e: Event, wanted: Issue, t: State)
    requires Distinct(s.issues) && !e.OnSelect? && !Leaves(s, e) && !GetsDetails(s, e) && !Changes(s, e) && !Posts(s, e)
    requires !Saves(s, e) && !s.saving && Home(s).Some?
    requires forall issue: Issue :: Opens(s, e, issue) <==> !s.saving && issue == wanted
    requires t.selected.Some? && Found(s.issues, wanted, t.selected.value)
    requires t.comments == [] && t.detail == s.detail + 1 && t.detailLoading
    ensures DetailAfter(s, e, t)
  {
    hide Opens, Saves, Home, Leaves, GetsDetails, Changes, Posts, Found, Picks;
    PicksFound(s, e, wanted, t.selected.value);
    assert Picks(s, e, t.selected.value);
  }

  lemma DetailOfOpeningKey(s: State, e: Event)
    requires Distinct(s.issues) && e.OnOpenKey?
    ensures DetailAfter(s, e, Next(s, e))
  {
    hide OpenIssue, OpenIssueKey, FirstWithKey, Home, Found;
    OpenIssueKeyTouches(s, e.key);
    if HasKey(s.issues, e.key) {
      var k := FirstWithKeyIsFirst(s.issues, e.key);
      OpensRow(s, e, k);
      OpenIssueTouches(s, s.issues[k]);
      if !s.saving && Home(s).Some? {
        OpenedDetail(s, e, s.issues[k], Next(s, e));
      } else {
        assert PicksNone(s, e);
      }
    } else {
      assert PicksNone(s, e);
    }
  }

  lemma DetailOfReply(s: State, e: Event)
    requires Sound(s) && Enabled(s, e) && e.OnReply?
    ensures DetailAfter(s, e, Next(s, e))
  {
    hide Tracked, Awaited, Accepted, Stale, Current, Honest, DetailAfter, Next;
    ArriveIs(s, e);
    var r := s.pending[e.request];
    if !Heard(s, e) {
      DetailUnheard(s, e);
    } else if r.Lookup? {
      DetailOfLookup(s, e);
    } else if r.Save? {
      WriteHasHome(s, e.request);
      DetailOfSave(s, e);
    } else if r.Revoke? {
      DetailOfRevoke(s, e);
    } else if r.Detail? || r.Post? || r.Mutate? {
      DetailOfContent(s, e);
    } else {
      DetailOfQuiet(s, e);
    }
  }

  lemma DetailUnheard(s: State, e: Event)
    requires e.OnReply? && !Heard(s, e)
    ensures DetailAfter(s, e, s.(pending := s.pending - {e.request}))
  {
    hide Stale;
    assert PicksNone(s, e);
  }

  lemma DetailOfLookup(s: State, e: Event)
    requires Distinct(s.issues) && Heard(s, e) && Question(s, e).Lookup? && Honest(Question(s, e), e.reply)
    ensures DetailAfter(s, e, Accepted(s.(pending := s.pending - {e.request}), Question(s, e), e.reply))
  {
    hide Stale, OpenIssue, Home, Found;
    var u := s.(pending := s.pending - {e.request});
    if e.reply.Single? {
      HomeOf(s, u);
      OpenIssueTouches(u, e.reply.issue);
      if !s.saving && Home(s).Some? {
        OpenedDetail(s, e, e.reply.issue, OpenIssue(u, e.reply.issue));
      } else {
        assert PicksNone(s, e);
      }
    } else {
      assert PicksNone(s, e);
    }
  }

  lemma DetailOfSave(s: State, e: Event)
    requires Distinct(s.issues) && Home(s).Some? && s.saving
    requires Heard(s, e) && Question(s, e).Save? && Honest(Question(s, e), e.reply)
    ensures DetailAfter(s, e, Accepted(s.(pending := s.pending - {e.request}), Question(s, e), e.reply))
  {
    hide Stale, Saved, Home, Swapped, HasId;
    var u := s.(pending := s.pending - {e.request}, saving := false);
    assert OpensNone(s, e);
    if e.reply.Single? {
      HomeOf(s, u);
      SavedTouches(u, e.reply.issue);
      assert Picks(s, e, e.reply.issue);
    } else {
      assert PicksNone(s, e);
    }
  }

  lemma DetailOfRevoke(s: State, e: Event)
    requires Heard(s, e) && Question(s, e).Revoke? && Honest(Question(s, e), e.reply)
    ensures DetailAfter(s, e, Accepted(s.(pending := s.pending - {e.request}), Question(s, e), e.reply))
  {
    hide Stale, SignedOut, Home;
    assert PicksNone(s, e);
    SignedOutTouches(s.(pending := s.pending - {e.request}, saving := false));
  }

  lemma DetailOfContent(s: State, e: Event)
    requires Heard(s, e) && Honest(Question(s, e), e.reply)
    requires Question(s, e).Detail? || Question(s, e).Post? || Question(s, e).Mutate?
    ensures DetailAfter(s, e, Accepted(s.(pending := s.pending - {e.request}), Question(s, e), e.reply))
  {
    hide Stale, Home, Refresh, SelectSprint, OpenIssue, Saved, SignedOut, Extended, Replaced;
    assert PicksNone(s, e);
  }

  lemma DetailOfQuiet(s: State, e: Event)
    requires Heard(s, e) && Honest(Question(s, e), e.reply)
    requires var r := Question(s, e); !(r.Lookup? || r.Save? || r.Revoke? || r.Detail? || r.Post? || r.Mutate?)
    ensures DetailAfter(s, e, Accepted(s.(pending := s.pending - {e.request}), Question(s, e), e.reply))
  {
    hide Stale, Home, Accepted, Honest;
    assert PicksNone(s, e);
    QuietDetail(s.(pending := s.pending - {e.request}), Question(s, e), e.reply);
  }

  lemma QuietDetail(s: State, r: Request, a: Reply)
    requires Honest(r, a) && !(r.Lookup? || r.Save? || r.Revoke? || r.Detail? || r.Post? || r.Mutate?)
    ensures SameDetail(s, Accepted(s, r, a))
  {
    hide Refresh, SelectSprint, OpenIssue, Saved, SignedOut, Extended, Replaced;
    if r.Restore? || r.Persist? {
      hide Accepted, SameDetail;
      IdentifyTouches(s, r, a);
    } else if a.DefaultSprint? {
      SelectSprintTouches(s, a.choice);
    }
  }

  // ----- Sprints and milestones -----

  lemma SprintsOfAction(s: State, e: Event)
    requires Enabled(s, e) && !e.OnReply?
    ensures SprintsAfter(s, e, Next(s, e))
  {
    hide Next, SprintsAfter;
    if e.OnOpenIssue? {
      SprintsOfOpening(s, e);
    } else if e.OnOpenKey? {
      SprintsOfOpeningKey(s, e);
    } else if e.OnSwitch? {
      SprintsOfSwitch(s, e);
    } else if e.OnRefresh? || e.OnShowSprints? || e.OnSelectSprint? || e.OnToggleMilestone? {
      SprintsOfSprints(s, e);
    } else {
      SprintsOfOther(s, e);
    }
  }

  lemma SprintsOfOpening(s: State, e: Event)
    requires Enabled(s, e) && e.OnOpenIssue?
    ensures SprintsAfter(s, e, Next(s, e))
  {
    hide Home, OpenIssue;
    OpenIssueTouches(s, e.issue);
    OpensThat(s, e);
  }

  lemma SprintsOfSwitch(s: State, e: Event)
    requires Enabled(s, e) && e.OnSwitch?
    ensures SprintsAfter(s, e, Next(s, e))
  {
    hide Home, SwitchWorkspace;
    SwitchTouches(s, e.index);
    NothingOpens(s, e);
  }

  lemma SprintsOfOther(s: State, e: Event)
    requires Enabled(s, e) && !e.OnReply? && !e.OnOpenIssue? && !e.OnOpenKey? && !e.OnSwitch?
    requires !e.OnRefresh? && !e.OnShowSprints? && !e.OnSelectSprint? && !e.OnToggleMilestone?
    ensures SprintsAfter(s, e, Next(s, e))
  {
    hide Home, Next;
    NothingOpens(s, e);
    SprintsUntouched(s, e);
  }

  lemma SprintsOfSprints(s: State, e: Event)
    requires Enabled(s, e) && (e.OnRefresh? || e.OnShowSprints? || e.OnSelectSprint? || e.OnToggleMilestone?)
    ensures SprintsAfter(s, e, Next(s, e))
  {
    hide Refresh, ShowSprints, SelectSprint, ToggleMilestone, Home;
    NothingOpens(s, e);
    match e
    case OnRefresh(more) => RefreshTouches(s, more);
    case OnShowSprints(none) => ShowSprintsTouches(s, none);
    case OnSelectSprint(id) => SelectSprintTouches(s, id);
    case OnToggleMilestone(id) => ToggleTouches(s, id);
  }

  lemma SprintsUntouched(s: State, e: Event)
    requires Enabled(s, e) && !e.OnReply? && !e.OnOpenIssue? && !e.OnOpenKey? && !e.OnSwitch? && !e.OnRefresh?
    requires !e.OnShowSprints? && !e.OnSelectSprint? && !e.OnToggleMilestone?
    ensures var t := Next(s, e); SameBoard(s, t) && t.sprints == s.sprints && t.sprintsView == s.sprintsView
  {
    hide SignIn, CancelLogin, SelectIssue, OpenForm, CloseForm, SaveIssue, PostUpdate, MutateIssue, LogOut, SameBoard;
    match e
    case OnSignIn(ok) => SignInTouches(s, ok);
    case OnCancelLogin => SignInTouches(s, true);
    case OnSelect(index) => SelectIssueTouches(s, index);
    case OnOpenForm(edit, overlay) => FormsTouch(s, edit, overlay);
    case OnCloseForm => FormsTouch(s, false, false);
    case OnSave(_) => WritesTouch(s, e);
    case OnPost(_, _) => WritesTouch(s, e);
    case OnMutate(_) => WritesTouch(s, e);
    case OnLogOut => WritesTouch(s, e);
  }

  lemma OpensThat(s: State, e: Event)
    requires e.OnOpenIssue?
    ensures OpensNone(s, e) <==> s.saving
  {
    assert s.saving || Opens(s, e, e.issue);
  }

  lemma SprintsOfOpeningKey(s: State, e: Event)
    requires Enabled(s, e) && e.OnOpenKey?
    ensures SprintsAfter(s, e, Next(s, e))
  {
    hide OpenIssue, OpenIssueKey, FirstWithKey, Home;
    OpenIssueKeyTouches(s, e.key);
    if HasKey(s.issues, e.key) {
      var k := FirstWithKeyIsFirst(s.issues, e.key);
      OpensRow(s, e, k);
      OpenIssueTouches(s, s.issues[k]);
    } else {
      assert OpensNone(s, e);
    }
  }

  lemma SprintsOfReply(s: State, e: Event)
    requires Sound(s) && Enabled(s, e) && e.OnReply?
    ensures SprintsAfter(s, e, Next(s, e))
  {
    hide Tracked, Awaited, Accepted, Stale, Current, Honest, SprintsAfter, Next;
    ArriveIs(s, e);
    var r := s.pending[e.request];
    if !Heard(s, e) {
      SprintsUnheard(s, e);
    } else if r.Restore? || r.Persist? {
      IdentifiersWait(s, e.request);
      SprintsOfIdentify(s, e);
    } else if r.Lookup? || r.Save? || r.Revoke? {
      if r.Save? { WriteHasHome(s, e.request); }
      SprintsOfScreen(s, e);
    } else if r.Sprints? || r.Milestones? || r.MilestoneIssues? {
      SprintsOfSprintReply(s, e);
    } else {
      SprintsOfQuiet(s, e);
    }
  }

  /** While the account is being found out nobody is signed in, and nothing else is being written. */
  lemma IdentifiersWait(s: State, k: nat)
    requires Sound(s) && k in s.pending && !Stale(s, s.pending[k]) && (s.pending[k].Restore? || s.pending[k].Persist?)
    ensures s.identity.None? && s.loading && (s.saving <==> s.pending[k].Persist?)
  {
    hide Shown, Awaited;
    assert Fits(s, s.pending[k]);
    SignInQuiet(s, k);
  }

  lemma SprintsUnheard(s: State, e: Event)
    requires e.OnReply? && !Heard(s, e)
    ensures SprintsAfter(s, e, s.(pending := s.pending - {e.request}))
  {
    hide Stale;
    assert OpensNone(s, e);
  }

  lemma SprintsOfIdentify(s: State, e: Event)
    requires Heard(s, e) && (Question(s, e).Restore? || Question(s, e).Persist?) && Honest(Question(s, e), e.reply)
    requires s.saving <==> Question(s, e).Persist?
    ensures SprintsAfter(s, e, Accepted(s.(pending := s.pending - {e.request}), Question(s, e), e.reply))
  {
    hide Stale, Accepted;
    assert OpensNone(s, e);
    IdentifyTouches(s.(pending := s.pending - {e.request}), Question(s, e), e.reply);
  }

  lemma SprintsOfScreen(s: State, e: Event)
    requires Heard(s, e) && (Question(s, e).Lookup? || Question(s, e).Save? || Question(s, e).Revoke?)
    requires Honest(Question(s, e), e.reply) && Distinct(s.issues)
    requires Question(s, e).Save? ==> Home(s).Some? && s.saving
    ensures SprintsAfter(s, e, Accepted(s.(pending := s.pending - {e.request}), Question(s, e), e.reply))
  {
    hide Stale, OpenIssue, Saved, SignedOut, Home, Swapped, HasId, Distinct, Refresh, SelectSprint;
    var u := s.(pending := s.pending - {e.request});
    HomeOf(s, u.(saving := false));
    if e.reply.Single? {
      if Question(s, e).Lookup? {
        OpenIssueTouches(u, e.reply.issue);
        assert s.saving || Opens(s, e, e.reply.issue);
        assert s.saving ==> OpensNone(s, e);
      } else {
        SavedTouches(u.(saving := false), e.reply.issue);
        assert OpensNone(s, e);
      }
    } else {
      assert OpensNone(s, e);
      SignedOutTouches(u.(saving := false));
    }
  }

  lemma SprintsOfSprintReply(s: State, e: Event)
    requires Heard(s, e) && Honest(Question(s, e), e.reply)
    requires var r := Question(s, e); r.Sprints? || r.Milestones? || r.MilestoneIssues?
    ensures SprintsAfter(s, e, Accepted(s.(pending := s.pending - {e.request}), Question(s, e), e.reply))
  {
    hide Stale, Home, Refresh, SelectSprint, OpenIssue, Saved, SignedOut, Extended, Replaced;
    assert OpensNone(s, e);
    var u := s.(pending := s.pending - {e.request});
    HomeOf(s, u);
    if e.reply.DefaultSprint? {
      SelectSprintTouches(u, e.reply.choice);
    }
  }

  lemma SprintsOfQuiet(s: State, e: Event)
    requires Heard(s, e) && Honest(Question(s, e), e.reply)
    requires var r := Question(s, e); r.Login? || r.Poll? || r.List? || r.Detail? || r.Post? || r.Mutate?
    ensures SprintsAfter(s, e, Accepted(s.(pending := s.pending - {e.request}), Question(s, e), e.reply))
  {
    hide Stale, Home, Accepted, Honest;
    assert OpensNone(s, e);
    QuietSprints(s.(pending := s.pending - {e.request}), Question(s, e), e.reply);
  }

  lemma QuietSprints(s: State, r: Request, a: Reply)
    requires Honest(r, a) && (r.Login? || r.Poll? || r.List? || r.Detail? || r.Post? || r.Mutate?)
    ensures var t := Accepted(s, r, a); SameBoard(s, t) && t.sprints == s.sprints && t.sprintsView == s.sprintsView
  {
    hide Accepted;
    if r.Login? || r.Poll? || r.List? {
      QuietReading(s, r, a);
    } else {
      QuietDetails(s, r, a);
    }
  }

  lemma QuietReading(s: State, r: Request, a: Reply)
    requires Honest(r, a) && (r.Login? || r.Poll? || r.List?)
    ensures var t := Accepted(s, r, a); SameBoard(s, t) && t.sprints == s.sprints && t.sprintsView == s.sprintsView
  {
    hide Refresh, SelectSprint, OpenIssue, Saved, SignedOut, Extended, Replaced;
  }

  lemma QuietDetails(s: State, r: Request, a: Reply)
    requires Honest(r, a) && (r.Detail? || r.Post? || r.Mutate?)
    ensures var t := Accepted(s, r, a); SameBoard(s, t) && t.sprints == s.sprints && t.sprintsView == s.sprintsView
  {
    hide Refresh, SelectSprint, OpenIssue, Saved, SignedOut, Extended, Replaced;
  }

  // ----- The account and the flags -----

  lemma AccountOfAction(s: State, e: Event)
    requires Enabled(s, e) && !e.OnReply?
    ensures AccountAfter(s, e, Next(s, e)) && Rises(s, Next(s, e))
  {
    hide Next, AccountAfter, Rises;
    RisesNext(s, e);
    if e.OnOpenIssue? || e.OnOpenKey? {
      AccountOfOpening(s, e);
    } else if e.OnSwitch? {
      AccountOfSwitch(s, e);
    } else if e.OnSave? || e.OnPost? || e.OnMutate? || e.OnLogOut? {
      AccountOfWriting(s, e);
    } else if e.OnSignIn? || e.OnCancelLogin? || e.OnOpenForm? || e.OnCloseForm? {
      AccountOfForms(s, e);
    } else {
      AccountOfScreen(s, e);
    }
  }

  lemma AccountOfOpening(s: State, e: Event)
    requires Enabled(s, e) && (e.OnOpenIssue? || e.OnOpenKey?)
    ensures AccountAfter(s, e, Next(s, e))
  {
    hide OpenIssue, OpenIssueKey, FirstWithKey, HasKey, Home;
    if e.OnOpenIssue? {
      OpenIssueTouches(s, e.issue);
    } else {
      OpenIssueKeyTouches(s, e.key);
      if HasKey(s.issues, e.key) { KeyOpens(s, e.key); }
    }
  }

  lemma KeyOpens(s: State, key: Key)
    requires HasKey(s.issues, key)
    ensures SameForm(s, OpenIssueKey(s, key)) && SamePerson(s, OpenIssueKey(s, key))
            && SameLoading(s, OpenIssueKey(s, key))
    ensures OpenIssueKey(s, key).saving == s.saving
  {
    hide OpenIssue, FirstWithKey, Home;
    OpenIssueTouches(s, FirstWithKey(s.issues, key));
  }

  lemma AccountOfSwitch(s: State, e: Event)
    requires e.OnSwitch?
    ensures AccountAfter(s, e, Next(s, e))
  {
    hide SwitchWorkspace, Home;
    SwitchTouches(s, e.index);
  }

  lemma AccountOfWriting(s: State, e: Event)
    requires Enabled(s, e) && (e.OnSave? || e.OnPost? || e.OnMutate? || e.OnLogOut?)
    ensures AccountAfter(s, e, Next(s, e))
  {
    hide Next, Writer;
    WritesTouch(s, e);
  }

  lemma AccountOfForms(s: State, e: Event)
    requires e.OnSignIn? || e.OnCancelLogin? || e.OnOpenForm? || e.OnCloseForm?
    ensures AccountAfter(s, e, Next(s, e))
  {
    if e.OnSignIn? || e.OnCancelLogin? {
      AccountOfSignIn(s, e);
    } else {
      hide Home, Writer, CanWrite;
      SluggedIsHome(s);
    }
  }

  lemma AccountOfSignIn(s: State, e: Event)
    requires e.OnSignIn? || e.OnCancelLogin?
    ensures AccountAfter(s, e, Next(s, e))
  {
  }

  lemma AccountOfScreen(s: State, e: Event)
    requires Enabled(s, e)
    requires e.OnRefresh? || e.OnSelect? || e.OnShowSprints? || e.OnSelectSprint? || e.OnToggleMilestone?
    ensures AccountAfter(s, e, Next(s, e))
  {
    hide Refresh, SelectIssue, ShowSprints, SelectSprint, ToggleMilestone, Home;
    match e
    case OnRefresh(more) => RefreshTouches(s, more);
    case OnSelect(index) => SelectIssueTouches(s, index);
    case OnShowSprints(none) => ShowSprintsTouches(s, none);
    case OnSelectSprint(id) => SelectSprintTouches(s, id);
    case OnToggleMilestone(id) => ToggleTouches(s, id);
  }

  lemma AccountOfReply(s: State, e: Event)
    requires Sound(s) && Enabled(s, e) && e.OnReply?
    ensures AccountAfter(s, e, Next(s, e)) && Rises(s, Next(s, e))
  {
    hide Tracked, Awaited, Accepted, Stale, Current, Honest, AccountAfter, Next, Rises;
    ArriveIs(s, e);
    var r := s.pending[e.request];
    if !Heard(s, e) {
      AccountUnheard(s, e);
    } else if r.Restore? || r.Persist? {
      IdentifiersWait(s, e.request);
      AccountOfIdentify(s, e);
    } else if r.Lookup? || r.Save? || r.Revoke? || r.Sprints? {
      if r.Save? { WriteHasHome(s, e.request); }
      AccountOfScreenReply(s, e);
    } else {
      AccountOfOther(s, e);
    }
    RisesNext(s, e);
  }

  lemma RisesNext(s: State, e: Event)
    requires Enabled(s, e)
    ensures Rises(s, Next(s, e))
  {
    hide Next, Enabled;
    StepFollows(s, e);
  }

  lemma AccountUnheard(s: State, e: Event)
    requires e.OnReply? && !Heard(s, e)
    ensures AccountAfter(s, e, s.(pending := s.pending - {e.request}))
  {
    hide Stale;
  }

  lemma AccountOfIdentify(s: State, e: Event)
    requires Heard(s, e) && (Question(s, e).Restore? || Question(s, e).Persist?) && Honest(Question(s, e), e.reply)
    requires s.identity.None? && (s.saving <==> Question(s, e).Persist?)
    ensures AccountAfter(s, e, Accepted(s.(pending := s.pending - {e.request}), Question(s, e), e.reply))
  {
    hide Stale, Accepted;
    IdentifyTouches(s.(pending := s.pending - {e.request}), Question(s, e), e.reply);
  }

  lemma AccountOfScreenReply(s: State, e: Event)
    requires Heard(s, e) && Honest(Question(s, e), e.reply) && Distinct(s.issues)
    requires var r := Question(s, e); r.Lookup? || r.Save? || r.Revoke? || r.Sprints?
    requires Question(s, e).Save? ==> Home(s).Some? && s.saving
    ensures AccountAfter(s, e, Accepted(s.(pending := s.pending - {e.request}), Question(s, e), e.reply))
  {
    hide Stale, OpenIssue, Saved, SignedOut, Home, Swapped, HasId, Distinct, Refresh, SelectSprint;
    var u := s.(pending := s.pending - {e.request});
    HomeOf(s, u.(saving := false));
    if e.reply.Single? {
      if Question(s, e).Lookup? {
        OpenIssueTouches(u, e.reply.issue);
      } else {
        SavedTouches(u.(saving := false), e.reply.issue);
      }
    } else if e.reply.DefaultSprint? {
      SelectSprintTouches(u, e.reply.choice);
    } else {
      SignedOutTouches(u.(saving := false));
    }
  }

  lemma AccountOfOther(s: State, e: Event)
    requires Heard(s, e) && Honest(Question(s, e), e.reply)
    requires var r := Question(s, e); !(r.Restore? || r.Persist? || r.Lookup? || r.Save? || r.Revoke? || r.Sprints?)
    ensures AccountAfter(s, e, Accepted(s.(pending := s.pending - {e.request}), Question(s, e), e.reply))
  {
    hide Stale, Home;
    if Question(s, e).Login? || Question(s, e).Poll? {
      hide Refresh, SelectSprint, OpenIssue, Saved, SignedOut, Extended, Replaced;
    } else {
      hide Accepted, Honest;
      PlainReply(s.(pending := s.pending - {e.request}), Question(s, e), e.reply);
    }
  }

  /** A reply that only shows something leaves the account alone; a list lowers the loading flag, a write its own. */
  lemma PlainReply(s: State, r: Request, a: Reply)
    requires Honest(r, a) && (r.List? || r.Detail? || r.Milestones? || r.MilestoneIssues? || r.Post? || r.Mutate?)
    ensures var t := Accepted(s, r, a);
            && SamePerson(s, t) && SameForm(s, t) && t.list == s.list
            && t.loading == (s.loading && !r.List?) && t.saving == (s.saving && !r.Post? && !r.Mutate?)
  {
    hide Refresh, SelectSprint, OpenIssue, Saved, SignedOut, Extended, Replaced;
  }

  // ----- Requests -----

  /** These requests, in this order, and no other, were sent. */
  ghost predicate Sent(s: State, t: State, rs: seq<Request>) {
    && t.sent == s.sent + |rs|
    && (forall k :: k in t.pending <==> k in s.pending || s.sent <= k < t.sent)
    && (forall k <- s.pending :: k < s.sent ==> t.pending[k] == s.pending[k])
    && (forall i | 0 <= i < |rs| :: t.pending[s.sent + i] == rs[i])
  }

  lemma SentNone(s: State, t: State)
    requires t.pending == s.pending && t.sent == s.sent
    ensures Sent(s, t, [])
  {
  }

  lemma SentOne(s: State, t: State, r: Request)
    requires Numbered(s) && t.pending == s.pending && t.sent == s.sent
    ensures Sent(s, Send(t, r), [r]) && Numbered(Send(t, r))
  {
  }

  lemma SentMore(s: State, t: State, u: State, rs: seq<Request>, qs: seq<Request>)
    requires Numbered(s) && Sent(s, t, rs) && Sent(t, u, qs)
    ensures Sent(s, u, rs + qs)
  {
    forall i | 0 <= i < |rs + qs| ensures u.pending[s.sent + i] == (rs + qs)[i] {
      if i < |rs| {
        assert s.sent + i in t.pending;
      } else {
        assert u.pending[t.sent + (i - |rs|)] == qs[i - |rs|];
      }
    }
  }

  function Ask(b: bool, r: Request): seq<Request> {
    if b then [r] else []
  }

  function HomeSlug(s: State): Slug {
    if Home(s).Some? then Home(s).value else ""
  }

  lemma LoadSprintsSends(s: State)
    requires Numbered(s)
    ensures var t := LoadSprints(s);
            Numbered(t) && Sent(s, t, Ask(Home(s).Some?, Sprints(s.session, s.sprints + 1, HomeSlug(s))))
  {
    hide Send, Sent, Numbered;
    SluggedIsHome(s);
    SentNone(s, s);
    if Home(s).Some? {
      SentOne(s, s.(sprints := s.sprints + 1), Sprints(s.session, s.sprints + 1, HomeSlug(s)));
    }
  }

  /** A refresh asks for the sprints first, if they are shown, and then for the list. */
  function RefreshAsks(s: State, more: bool): seq<Request> {
    if s.saving || Home(s).None? then []
    else
      Ask(s.sprintsView && !more, Sprints(s.session, s.sprints + 1, HomeSlug(s)))
      + [List(s.session, s.list + 1, HomeSlug(s), more)]
  }

  lemma RefreshSends(s: State, more: bool)
    requires Numbered(s)
    ensures Numbered(Refresh(s, more)) && Sent(s, Refresh(s, more), RefreshAsks(s, more))
  {
    hide Send, Sent, Numbered, LoadSprints, Home;
    SluggedIsHome(s);
    SentNone(s, s);
    if !s.saving && Home(s).Some? {
      LoadSprintsSends(s);
      LoadSprintsTouches(s);
      var t := if s.sprintsView && !more then LoadSprints(s) else s;
      var r := List(t.session, t.list + 1, HomeSlug(s), more);
      SentOne(t, t.(list := t.list + 1, loading := true), r);
      SentMore(s, t, Refresh(s, more), Ask(s.sprintsView && !more, Sprints(s.session, s.sprints + 1, HomeSlug(s))),
               [r]);
    }
  }

  lemma SelectIssueSends(s: State, index: nat)
    requires Numbered(s)
    ensures var t := SelectIssue(s, index); var asks := index < |s.issues| && !s.saving && Home(s).Some?;
            Sent(s, t, Ask(asks, Detail(s.session, s.detail + 1, HomeSlug(s),
                                        if index < |s.issues| then s.issues[index].key else "")))
  {
    hide Send, Sent, Numbered, Home;
    SluggedIsHome(s);
    SentNone(s, s);
    if index < |s.issues| && !s.saving && Home(s).Some? {
      SentOne(s, s.(selected := Some(s.issues[index]), comments := [], detail := s.detail + 1, detailLoading := true),
              Detail(s.session, s.detail + 1, HomeSlug(s), s.issues[index].key));
    }
  }

  /** Opening an issue asks for the details of the one that is then selected. */
  lemma OpenIssueSends(s: State, issue: Issue)
    requires Numbered(s)
    ensures var t := OpenIssue(s, issue);
            Sent(s, t, Ask(!s.saving && Home(s).Some?,
                           Detail(s.session, s.detail + 1, HomeSlug(s),
                                  if t.selected.Some? then t.selected.value.key else "")))
  {
    hide SelectIssue, IndexOf, Home, Sent, Numbered;
    var t := s.(sprintsView := false);
    var u := t.(issues := s.issues + [issue]);
    HomeOf(s, t);
    HomeOf(s, u);
    SentNone(s, s);
    SameNumbers(s, t);
    SameNumbers(s, u);
    match IndexOf(s.issues, issue.id)
    case Some(k) => SelectIssueSends(t, k); SelectIssueTouches(t, k); SentFrom(s, t, SelectIssue(t, k));
    case None =>
      SelectIssueSends(u, |s.issues|);
      SelectIssueTouches(u, |s.issues|);
      SentFrom(s, u, SelectIssue(u, |s.issues|));
  }

  lemma SameNumbers(s: State, t: State)
    requires Numbered(s) && t.pending == s.pending && t.sent == s.sent
    ensures Numbered(t)
  {
  }

  lemma SentFrom(s: State, t: State, u: State)
    requires t.pending == s.pending && t.sent == s.sent
    ensures forall rs :: Sent(t, u, rs) ==> Sent(s, u, rs)
  {
  }

  /** The requests sent, as a set of reasons. */
  lemma SentIsReason(s: State, u: State, e: Event, t: State, rs: seq<Request>)
    requires u.sent == s.sent && u.pending == (if e.OnReply? then s.pending - {e.request} else s.pending)
    requires Numbered(s) && Sent(u, t, rs) && forall r: Request :: r in rs <==> Reason(s, e, t, r)
    ensures AsksAfter(s, e, t)
  {
    hide Reason;
    forall r: Request | true ensures Sends(s, t, r) <==> r in rs {
      if r in rs {
        var i :| 0 <= i < |rs| && rs[i] == r;
        assert t.pending[s.sent + i] == r;
      }
      if Sends(s, t, r) {
        var k :| s.sent <= k < t.sent && k in t.pending && t.pending[k] == r;
        assert rs[k - s.sent] == r;
      }
    }
  }

  lemma AsksOfSignIn(s: State, e: Event)
    requires Numbered(s) && (e.OnSignIn? || e.OnCancelLogin?)
    ensures AsksAfter(s, e, Next(s, e))
  {
    hide Next, AsksAfter, Numbered;
    if e.OnSignIn? {
      AsksOfLogin(s, e);
    } else {
      AsksOfCancel(s, e);
    }
  }

  lemma AsksOfLogin(s: State, e: Event)
    requires Numbered(s) && e.OnSignIn?
    ensures AsksAfter(s, e, Next(s, e))
  {
    hide Sent, AsksAfter, Numbered, Send;
    SentNone(s, s);
    SentOne(s, s.(loading := true, session := s.session + 1), Login(s.session + 1));
    SendTouches(s.(loading := true, session := s.session + 1), Login(s.session + 1));
    SentIsReason(s, s, e, Next(s, e), Ask(StartsLogin(s, e), Login(s.session + 1)));
  }

  lemma AsksOfCancel(s: State, e: Event)
    requires Numbered(s) && e.OnCancelLogin?
    ensures AsksAfter(s, e, Next(s, e))
  {
    hide Sent, AsksAfter, Numbered, Send;
    SentNone(s, Next(s, e));
    SentIsReason(s, s, e, Next(s, e), []);
  }

  lemma AsksOfNothing(s: State, e: Event)
    requires Numbered(s) && (e.OnOpenForm? || e.OnCloseForm?)
    ensures AsksAfter(s, e, Next(s, e))
  {
    hide Sent, AsksAfter, Numbered, Send, CanWrite;
    SentNone(s, Next(s, e));
    SentIsReason(s, s, e, Next(s, e), []);
  }

  lemma AsksOfRefresh(s: State, e: Event)
    requires Numbered(s) && e.OnRefresh?
    ensures AsksAfter(s, e, Next(s, e))
  {
    hide Sent, AsksAfter, Numbered, Refresh, Home;
    var t := Next(s, e);
    RefreshSends(s, e.more);
    RefreshTouches(s, e.more);
    HomeOf(s, t);
    SentIsReason(s, s, e, t, RefreshAsks(s, e.more));
  }

  lemma AsksOfSwitch(s: State, e: Event)
    requires Numbered(s) && e.OnSwitch?
    ensures AsksAfter(s, e, Next(s, e))
  {
    hide Sent, AsksAfter, Numbered, Refresh;
    var t := Next(s, e);
    SentNone(s, s);
    if Switches(s, e) {
      var u := Emptied(s.(workspace := e.index));
      SameNumbers(s, u);
      RefreshSends(u, false);
      RefreshTouches(u, false);
      SentFrom(s, u, t);
      SentIsReason(s, s, e, t, RefreshAsks(u, false));
    } else {
      SentIsReason(s, s, e, t, []);
    }
  }

  lemma AsksOfSelect(s: State, e: Event)
    requires Numbered(s) && e.OnSelect?
    ensures AsksAfter(s, e, Next(s, e))
  {
    hide Sent, AsksAfter, Numbered, SelectIssue, Home;
    var t := Next(s, e);
    var asks := e.index < |s.issues| && !s.saving && Home(s).Some?;
    var key := if e.index < |s.issues| then s.issues[e.index].key else "";
    SelectIssueSends(s, e.index);
    SelectIssueTouches(s, e.index);
    NothingOpens(s, e);
    if asks {
      assert Picks(s, e, s.issues[e.index]);
    } else {
      assert PicksNone(s, e);
    }
    SentIsReason(s, s, e, t, Ask(asks, Detail(s.session, s.detail + 1, HomeSlug(s), key)));
  }

  /** Opening asks for the details of what was found, and for nothing else. */
  lemma AsksOfFound(s: State, u: State, e: Event, wanted: Issue)
    requires Numbered(s) && Distinct(s.issues) && (e.OnOpenIssue? || e.OnOpenKey? || e.OnReply?)
    requires u == s.(pending := u.pending) && u.pending == if e.OnReply? then s.pending - {e.request} else s.pending
    requires forall issue: Issue :: Opens(s, e, issue) <==> !s.saving && issue == wanted
    requires e.OnOpenKey? ==> HasKey(s.issues, e.key)
    requires e.OnReply? ==> Heard(s, e) && Question(s, e).Lookup? && e.reply.Single?
    ensures AsksAfter(s, e, OpenIssue(u, wanted))
  {
    hide Sent, AsksAfter, OpenIssue, Home, Opens, Stale, Found, Picks, Reason;
    var t := OpenIssue(u, wanted);
    HomeOf(s, u);
    OpenIssueSends(u, wanted);
    OpenIssueTouches(u, wanted);
    var asks := !s.saving && Home(s).Some?;
    var key := if t.selected.Some? then t.selected.value.key else "";
    if asks {
      PicksFound(s, e, wanted, t.selected.value);
      assert Picks(s, e, t.selected.value);
    } else {
      PicksNothing(s, e, wanted);
    }
    FoundReasons(s, e, t, asks, key);
    SentIsReason(s, u, e, t, Ask(asks, Detail(s.session, s.detail + 1, HomeSlug(s), key)));
  }

  /** What was found is the only reason to ask. */
  lemma FoundReasons(s: State, e: Event, t: State, asks: bool, key: Key)
    requires e.OnOpenIssue? || e.OnOpenKey? || (e.OnReply? && Heard(s, e) && Question(s, e).Lookup? && e.reply.Single?)
    requires e.OnOpenKey? ==> HasKey(s.issues, e.key)
    requires t.session == s.session && (asks ==> t.detail == s.detail + 1 && Home(s).Some?)
    requires asks ==> (exists issue: Issue :: Picks(s, e, issue))
                      && forall issue: Issue :: Picks(s, e, issue) ==> issue.key == key
    requires !asks ==> PicksNone(s, e)
    ensures forall r: Request ::
              r in Ask(asks, Detail(s.session, s.detail + 1, HomeSlug(s), key)) <==> Reason(s, e, t, r)
  {
    hide Home, Stale, Picks, HasKey;
  }

  lemma PicksNothing(s: State, e: Event, wanted: Issue)
    requires (s.saving || Home(s).None?) && (e.OnOpenIssue? || e.OnOpenKey? || e.OnReply?) && !Saves(s, e)
    requires forall issue: Issue :: Opens(s, e, issue) <==> !s.saving && issue == wanted
    ensures PicksNone(s, e)
  {
    hide Opens, Saves;
  }

  lemma AsksOfOpening(s: State, e: Event)
    requires Numbered(s) && Distinct(s.issues) && Enabled(s, e) && (e.OnOpenIssue? || e.OnOpenKey?)
    ensures AsksAfter(s, e, Next(s, e))
  {
    hide Sent, AsksAfter, OpenIssue, OpenIssueKey, FirstWithKey, Home;
    if e.OnOpenIssue? {
      AsksOfFound(s, s, e, e.issue);
    } else {
      OpenIssueKeyTouches(s, e.key);
      if HasKey(s.issues, e.key) {
        var k := FirstWithKeyIsFirst(s.issues, e.key);
        OpensRow(s, e, k);
        AsksOfFound(s, s, e, s.issues[k]);
      } else {
        AsksOfLookup(s, e);
      }
    }
  }

  lemma AsksOfLookup(s: State, e: Event)
    requires Numbered(s) && e.OnOpenKey? && !HasKey(s.issues, e.key)
    ensures AsksAfter(s, e, OpenIssueKey(s, e.key))
  {
    hide Sent, AsksAfter, Numbered, OpenIssue, Home, Send;
    SluggedIsHome(s);
    SentNone(s, s);
    var r := Lookup(s.session, HomeSlug(s), e.key);
    SentOne(s, s, r);
    SendTouches(s, r);
    assert OpensNone(s, e) && PicksNone(s, e);
    SentIsReason(s, s, e, OpenIssueKey(s, e.key), Ask(Home(s).Some?, r));
  }

  lemma AsksOfWriting(s: State, e: Event)
    requires Numbered(s) && Enabled(s, e) && (e.OnSave? || e.OnPost? || e.OnMutate? || e.OnLogOut?)
    ensures AsksAfter(s, e, Next(s, e))
  {
    hide Sent, AsksAfter, Numbered, Write, Home, CanWrite, Writer;
    SluggedIsHome(s);
    SentNone(s, s);
    NothingOpens(s, e);
    WritesTouch(s, e);
    var t := Next(s, e);
    if Begins(s, e) {
      WriterHasHome(s);
      var key := if s.selected.Some? then s.selected.value.key else "";
      var r := match e
        case OnSave(_) => Save(s.session, HomeSlug(s), s.editKey)
        case OnPost(_, _) => Post(s.session, s.detail, HomeSlug(s), key)
        case OnMutate(_) => Mutate(s.session, s.detail, HomeSlug(s), key)
        case _ => Revoke;
      WriteSends(s, r);
      SentIsReason(s, s, e, t, [r]);
    } else {
      SentIsReason(s, s, e, t, []);
    }
  }

  lemma WriterHasHome(s: State)
    ensures Writer(s) ==> Home(s).Some?
  {
  }

  lemma WriteSends(s: State, r: Request)
    requires Numbered(s)
    ensures Sent(s, Write(s, r), [r])
  {
    hide Send, Sent, Numbered;
    SentOne(s, s.(list := s.list + 1, loading := false, saving := true), r);
  }

  lemma AsksOfSprints(s: State, e: Event)
    requires Numbered(s) && e.OnShowSprints?
    ensures AsksAfter(s, e, Next(s, e))
  {
    hide Sent, AsksAfter, LoadSprints, Home;
    var u, t := s.(sprintsView := true), Next(s, e);
    HomeOf(s, u);
    SentNone(s, u);
    LoadSprintsSends(u);
    ShowSprintsTouches(s, e.none);
    HomeOf(s, t);
    SentFrom(s, u, LoadSprints(u));
    NothingOpens(s, e);
    SentIsReason(s, s, e, t, Ask(e.none && Home(s).Some?, Sprints(s.session, s.sprints + 1, HomeSlug(s))));
  }

  lemma SelectSprintSends(s: State, id: Option<string>)
    requires Numbered(s)
    ensures Sent(s, SelectSprint(s, id),
                 Ask(id.Some? && Home(s).Some?,
                     Milestones(s.session, s.sprints + 1, HomeSlug(s), if id.Some? then id.value else "")))
  {
    hide Sent, Numbered, Send, Home;
    SluggedIsHome(s);
    var t := s.(milestones := s.milestones + 1, milestone := None, milestoneIssues := None, sprint := id, board := []);
    SentNone(s, t);
    SentOne(s, t.(sprints := t.sprints + 1),
            Milestones(s.session, s.sprints + 1, HomeSlug(s), if id.Some? then id.value else ""));
  }

  lemma AsksOfChoice(s: State, e: Event)
    requires Numbered(s) && e.OnSelectSprint?
    ensures AsksAfter(s, e, Next(s, e))
  {
    hide Sent, AsksAfter, SelectSprint, Home;
    SelectSprintSends(s, e.id);
    SelectSprintTouches(s, e.id);
    NothingOpens(s, e);
    SentIsReason(s, s, e, Next(s, e),
                 Ask(e.id.Some? && Home(s).Some?,
                     Milestones(s.session, s.sprints + 1, HomeSlug(s), if e.id.Some? then e.id.value else "")));
  }

  lemma AsksOfToggle(s: State, e: Event)
    requires Numbered(s) && e.OnToggleMilestone?
    ensures AsksAfter(s, e, Next(s, e))
  {
    hide Sent, AsksAfter, Numbered, Send, Home;
    SluggedIsHome(s);
    ToggleTouches(s, e.chosen);
    var u := s.(milestones := s.milestones + 1, milestoneIssues := None);
    var r := MilestoneIssues(s.session, s.milestones + 1, HomeSlug(s), e.chosen);
    SentNone(s, u.(milestone := None));
    SentNone(s, u.(milestone := Some(e.chosen)));
    SentOne(s, u.(milestone := Some(e.chosen)), r);
    NothingOpens(s, e);
    SentIsReason(s, s, e, Next(s, e), Ask(s.milestone != Some(e.chosen) && Home(s).Some?, r));
  }

  lemma AsksOfAction(s: State, e: Event)
    requires Numbered(s) && Distinct(s.issues) && Enabled(s, e) && !e.OnReply?
    ensures AsksAfter(s, e, Next(s, e))
  {
    hide Next, AsksAfter;
    match e
    case OnSignIn(_) => AsksOfSignIn(s, e);
    case OnCancelLogin => AsksOfSignIn(s, e);
    case OnRefresh(_) => AsksOfRefresh(s, e);
    case OnSelect(_) => AsksOfSelect(s, e);
    case OnOpenIssue(_) => AsksOfOpening(s, e);
    case OnOpenKey(_) => AsksOfOpening(s, e);
    case OnSwitch(_) => AsksOfSwitch(s, e);
    case OnOpenForm(_, _) => AsksOfNothing(s, e);
    case OnCloseForm => AsksOfNothing(s, e);
    case OnSave(_) => AsksOfWriting(s, e);
    case OnPost(_, _) => AsksOfWriting(s, e);
    case OnMutate(_) => AsksOfWriting(s, e);
    case OnLogOut => AsksOfWriting(s, e);
    case OnShowSprints(_) => AsksOfSprints(s, e);
    case OnSelectSprint(_) => AsksOfChoice(s, e);
    case OnToggleMilestone(_) => AsksOfToggle(s, e);
  }

  lemma AsksOfReply(s: State, e: Event)
    requires Sound(s) && Numbered(s) && Enabled(s, e) && e.OnReply?
    ensures AsksAfter(s, e, Next(s, e))
  {
    hide Tracked, Awaited, Accepted, Stale, Current, Honest, AsksAfter, Next, Numbered;
    ArriveIs(s, e);
    var r := s.pending[e.request];
    if !Heard(s, e) {
      AsksUnheard(s, e);
    } else if r.Restore? || r.Persist? {
      IdentifiersWait(s, e.request);
      AsksOfIdentify(s, e);
    } else if r.Login? || r.Poll? {
      StepOfThisSession(s, e.request);
      AsksOfPoll(s, e);
    } else if r.Lookup? {
      AsksOfFinding(s, e);
    } else if r.Sprints? {
      AsksOfDefault(s, e);
    } else if r.Save? {
      WriteHasHome(s, e.request);
      AsksOfSave(s, e);
    } else {
      AsksOfQuiet(s, e);
    }
  }

  lemma StepOfThisSession(s: State, k: nat)
    requires Tracked(s) && k in s.pending && !Stale(s, s.pending[k]) && (s.pending[k].Login? || s.pending[k].Poll?)
    ensures s.pending[k].session == s.session
  {
    assert Fits(s, s.pending[k]);
  }

  /** The state in which a reply finds the rest of the requests. */
  function Without(s: State, k: nat): State {
    s.(pending := s.pending - {k})
  }

  lemma WithoutNumbered(s: State, k: nat)
    requires Numbered(s)
    ensures Numbered(Without(s, k))
  {
  }

  lemma AsksUnheard(s: State, e: Event)
    requires Numbered(s) && e.OnReply? && !Heard(s, e)
    ensures AsksAfter(s, e, Without(s, e.request))
  {
    hide Sent, AsksAfter, Numbered, Stale;
    assert OpensNone(s, e) && PicksNone(s, e);
    SentNone(Without(s, e.request), Without(s, e.request));
    SentIsReason(s, Without(s, e.request), e, Without(s, e.request), []);
  }

  lemma AsksOfIdentify(s: State, e: Event)
    requires Numbered(s) && Heard(s, e) && (Question(s, e).Restore? || Question(s, e).Persist?)
    requires Honest(Question(s, e), e.reply) && (s.saving <==> Question(s, e).Persist?)
    ensures AsksAfter(s, e, Accepted(Without(s, e.request), Question(s, e), e.reply))
  {
    hide Sent, AsksAfter, Numbered, Stale, Refresh, OpenIssue, SelectSprint, Saved, SignedOut, Extended, Replaced;
    var w, r, a := Without(s, e.request), Question(s, e), e.reply;
    var u := w.(loading := false, saving := s.saving && r.Restore?);
    WithoutNumbered(s, e.request);
    SameNumbers(w, u);
    SentNone(w, u);
    IdentifyTouches(w, r, a);
    if Identifies(s, e) {
      var v := u.(identity := a.memberships);
      SameNumbers(w, v);
      RefreshSends(v, false);
      RefreshTouches(v, false);
      SentFrom(w, v, Refresh(v, false));
      IdentifyReasons(s, e, v, Accepted(w, r, a));
      SentIsReason(s, w, e, Accepted(w, r, a), RefreshAsks(v, false));
    } else {
      SentNone(w, Accepted(w, r, a));
      SentIsReason(s, w, e, Accepted(w, r, a), []);
    }
  }

  /** Knowing the account is reason to ask for its list, and for the sprints if they are shown. */
  lemma IdentifyReasons(s: State, e: Event, v: State, t: State)
    requires Identifies(s, e) && v.identity == e.reply.memberships && v.workspace == s.workspace && !v.saving
    requires v.session == s.session && v.list == s.list && v.sprints == s.sprints && v.sprintsView == s.sprintsView
    requires t.identity == v.identity && t.workspace == v.workspace && t.session == v.session
    requires Home(v).Some? ==> t.list == v.list + 1 && (v.sprintsView ==> t.sprints == v.sprints + 1)
    ensures forall r: Request :: r in RefreshAsks(v, false) <==> Reason(s, e, t, r)
  {
    hide Stale;
  }

  lemma AsksOfPoll(s: State, e: Event)
    requires Numbered(s) && Heard(s, e) && (Question(s, e).Login? || Question(s, e).Poll?)
    requires Honest(Question(s, e), e.reply) && Question(s, e).session == s.session
    ensures AsksAfter(s, e, Accepted(Without(s, e.request), Question(s, e), e.reply))
  {
    hide Sent, AsksAfter, Numbered, Stale, Send, Refresh, OpenIssue, SelectSprint, Saved, SignedOut, Extended, Replaced;
    var w, r, a := Without(s, e.request), Question(s, e), e.reply;
    WithoutNumbered(s, e.request);
    SentNone(w, w.(loading := false));
    SentOne(w, w, Poll(s.session));
    SentOne(w, w.(saving := true), Persist(s.session));
    SendTouches(w, Poll(s.session));
    SendTouches(w.(saving := true), Persist(s.session));
    SentIsReason(s, w, e, Accepted(w, r, a),
                 if a == Failed then [] else if a == Granted then [Persist(s.session)] else [Poll(s.session)]);
  }

  lemma AsksOfFinding(s: State, e: Event)
    requires Numbered(s) && Distinct(s.issues) && Heard(s, e) && Question(s, e).Lookup?
             && Honest(Question(s, e), e.reply)
    ensures AsksAfter(s, e, Accepted(Without(s, e.request), Question(s, e), e.reply))
  {
    hide Sent, AsksAfter, Numbered, Stale, OpenIssue, Distinct;
    var w := Without(s, e.request);
    if e.reply.Single? {
      AsksOfFound(s, w, e, e.reply.issue);
    } else {
      SentNone(w, w);
      assert OpensNone(s, e) && PicksNone(s, e);
      SentIsReason(s, w, e, w, []);
    }
  }

  lemma AsksOfDefault(s: State, e: Event)
    requires Numbered(s) && Heard(s, e) && Question(s, e).Sprints? && Honest(Question(s, e), e.reply)
    ensures AsksAfter(s, e, Accepted(Without(s, e.request), Question(s, e), e.reply))
  {
    hide Sent, AsksAfter, Numbered, Stale, SelectSprint, Home;
    var w := Without(s, e.request);
    WithoutNumbered(s, e.request);
    HomeOf(s, w);
    assert OpensNone(s, e) && PicksNone(s, e);
    if e.reply.DefaultSprint? {
      var id := e.reply.choice;
      SelectSprintSends(w, id);
      SelectSprintTouches(w, id);
      SentIsReason(s, w, e, SelectSprint(w, id),
                   Ask(id.Some? && Home(s).Some?,
                       Milestones(s.session, s.sprints + 1, HomeSlug(s), if id.Some? then id.value else "")));
    } else {
      SentNone(w, w);
      SentIsReason(s, w, e, w, []);
    }
  }

  lemma AsksOfSave(s: State, e: Event)
    requires Numbered(s) && Distinct(s.issues) && Home(s).Some? && s.saving
    requires Heard(s, e) && Question(s, e).Save? && Honest(Question(s, e), e.reply)
    ensures AsksAfter(s, e, Accepted(Without(s, e.request), Question(s, e), e.reply))
  {
    hide Sent, AsksAfter, Numbered, Stale, Saved, Home, Swapped, HasId, Distinct;
    var w := Without(s, e.request);
    var u := w.(saving := false);
    WithoutNumbered(s, e.request);
    HomeOf(s, u);
    assert OpensNone(s, e);
    if e.reply.Single? {
      SameNumbers(w, u);
      SavedSends(u, e.reply.issue);
      SavedTouches(u, e.reply.issue);
      SentFrom(w, u, Saved(u, e.reply.issue));
      assert Picks(s, e, e.reply.issue);
      SentIsReason(s, w, e, Saved(u, e.reply.issue), [Detail(s.session, s.detail + 2, HomeSlug(s), e.reply.issue.key)]);
    } else {
      SentNone(w, u);
      assert PicksNone(s, e);
      SentIsReason(s, w, e, u, []);
    }
  }

  lemma SavedSends(s: State, issue: Issue)
    requires Numbered(s) && Distinct(s.issues) && !s.saving && Home(s).Some?
    ensures Sent(s, Saved(s, issue), [Detail(s.session, s.detail + 2, HomeSlug(s), issue.key)])
  {
    hide SelectIssue, IndexOf, Replaced, Home, Sent, Numbered;
    var rows := if IndexOf(s.issues, issue.id).Some? then Replaced(s.issues, issue) else [issue] + s.issues;
    var t := s.(issues := rows, selected := Some(issue), detail := s.detail + 1, comments := [], detailLoading := false,
                editing := false);
    HomeOf(s, t);
    SavedRow(s.issues, rows, issue);
    SameNumbers(s, t);
    SelectIssueSends(t, IndexOf(rows, issue.id).value);
    SentFrom(s, t, SelectIssue(t, IndexOf(rows, issue.id).value));
  }

  lemma AsksOfQuiet(s: State, e: Event)
    requires Numbered(s) && Heard(s, e) && Honest(Question(s, e), e.reply)
    requires var r := Question(s, e);
             r.List? || r.Detail? || r.Milestones? || r.MilestoneIssues? || r.Post? || r.Mutate? || r.Revoke?
    ensures AsksAfter(s, e, Accepted(Without(s, e.request), Question(s, e), e.reply))
  {
    hide Sent, AsksAfter, Numbered, Stale, Accepted, Honest;
    var w := Without(s, e.request);
    QuietRequests(w, Question(s, e), e.reply);
    SentNone(w, Accepted(w, Question(s, e), e.reply));
    assert OpensNone(s, e) && PicksNone(s, e);
    SentIsReason(s, w, e, Accepted(w, Question(s, e), e.reply), []);
  }

  lemma QuietRequests(s: State, r: Request, a: Reply)
    requires Honest(r, a)
    requires r.List? || r.Detail? || r.Milestones? || r.MilestoneIssues? || r.Post? || r.Mutate? || r.Revoke?
    ensures Accepted(s, r, a).pending == s.pending && Accepted(s, r, a).sent == s.sent
  {
    hide Refresh, SelectSprint, OpenIssue, Saved, Extended, Replaced, SignedOut;
    SignedOutTouches(s.(saving := false));
  }

  // ----- The whole effect of an event -----

  /** What every event makes of everything the window keeps. */
  lemma EffectOf(s: State, e: Event)
    requires Sound(s) && Enabled(s, e)
    ensures var t := Next(s, e);
            && RowsAfter(s, e, t) && DetailAfter(s, e, t) && SprintsAfter(s, e, t) && AccountAfter(s, e, t)
            && AsksAfter(s, e, t) && Rises(s, t)
  {
    hide Tracked, Awaited, Next, RowsAfter, DetailAfter, SprintsAfter, AccountAfter, AsksAfter, Rises;
    TrackedNumbers(s);
    if e.OnReply? {
      RowsOfReply(s, e);
      DetailOfReply(s, e);
      SprintsOfReply(s, e);
      AccountOfReply(s, e);
      AsksOfReply(s, e);
    } else {
      RowsOfAction(s, e);
      DetailOfAction(s, e);
      SprintsOfAction(s, e);
      AccountOfAction(s, e);
      AsksOfAction(s, e);
    }
  }

  // ----- Rows over whole runs -----

  /** The ids shown in the list. */
  predicate Lists(s: State, id: string) {
    HasId(s.issues, id)
  }

  /** Only a first page, and leaving the organisation, can take a row off the list. */
  ghost predicate Clears(s: State, e: Event) {
    FirstPage(s, e) || Leaves(s, e)
  }

  /** No event of the run does. */
  ghost predicate Uncleared(s: State, es: seq<Event>)
    requires Legal(s, es)
  {
    es == [] || (Uncleared(s, es[..|es| - 1]) && !Clears(Run(s, es[..|es| - 1]), es[|es| - 1]))
  }

  lemma RowStays(s: State, e: Event, t: State, k: nat)
    requires RowsAfter(s, e, t) && k < |s.issues| && !Clears(s, e)
    ensures exists j | 0 <= j < |t.issues| :: t.issues[j].id == s.issues[k].id
    ensures !Saves(s, e) ==> k < |t.issues| && t.issues[k].id == s.issues[k].id
  {
    hide FirstPage, NextPage, Changes, Leaves, Opens, Unseen, Stale;
    if Saves(s, e) && !HasId(s.issues, e.reply.issue.id) {
      assert t.issues[k + 1] == s.issues[k];
    } else {
      KeptInPlace(s, e, t, k);
      assert t.issues[k].id == s.issues[k].id;
    }
  }

  lemma KeptInPlace(s: State, e: Event, t: State, k: nat)
    requires RowsAfter(s, e, t) && k < |s.issues| && !Clears(s, e)
    requires Saves(s, e) ==> HasId(s.issues, e.reply.issue.id)
    ensures k < |t.issues| && t.issues[k].id == s.issues[k].id
  {
    hide FirstPage, NextPage, Leaves, Opens, Unseen, HasId, Stale;
    if !OpensNone(s, e) {
      var issue: Issue :| Opens(s, e, issue);
    }
  }

  /** In every run without a first page, a change of organisation or a sign-out, every row's id stays on the list. */
  lemma {:induction false} RowsStay(s: State, es: seq<Event>, id: string)
    requires Sound(s) && Legal(s, es) && Uncleared(s, es) && Lists(s, id)
    ensures Lists(Run(s, es), id)
  {
    hide Sound, Next, Enabled, Clears, RowsAfter, DetailAfter, SprintsAfter, AccountAfter, AsksAfter;
    if es != [] {
      var prior, e := es[..|es| - 1], es[|es| - 1];
      var t := Run(s, prior);
      RowsStay(s, prior, id);
      RunSound(s, prior);
      EffectOf(t, e);
      var k :| 0 <= k < |t.issues| && t.issues[k].id == id;
      RowStays(t, e, Next(t, e), k);
    }
  }

  /** A further page keeps every loaded row in its place, and shows every issue of the page. */
  lemma NextPageKeepsAndShows(s: State, e: Event)
    requires Sound(s) && Enabled(s, e) && NextPage(s, e)
    ensures s.issues <= Next(s, e).issues
    ensures forall row <- e.reply.issues :: Lists(Next(s, e), row.id)
    ensures forall row <- Next(s, e).issues :: row in s.issues || row in e.reply.issues
  {
    hide Sound, Next, Enabled, DetailAfter, SprintsAfter, AccountAfter, AsksAfter;
    EffectOf(s, e);
    UnseenIds(s.issues, e.reply.issues);
    var unseen := Unseen(s.issues, e.reply.issues);
    var rows := s.issues + unseen;
    forall row <- e.reply.issues ensures HasId(rows, row.id) {
      if HasId(s.issues, row.id) {
        var k :| 0 <= k < |s.issues| && s.issues[k].id == row.id;
        assert rows[k].id == row.id;
      } else {
        var k :| 0 <= k < |unseen| && unseen[k] == row;
        assert rows[|s.issues| + k] == row;
      }
    }
  }

  /** A first page shows exactly the page. */
  lemma FirstPageShowsPage(s: State, e: Event)
    requires Sound(s) && Enabled(s, e) && FirstPage(s, e)
    ensures Next(s, e).issues == e.reply.issues && Next(s, e).cursor == e.reply.cursor
  {
    hide Sound, Next, Enabled, DetailAfter, SprintsAfter, AccountAfter, AsksAfter;
    EffectOf(s, e);
  }

  // ----- Comments over whole runs -----

  /** The selected issue is left, or its details are read again. */
  ghost predicate Disturbs(s: State, e: Event) {
    Leaves(s, e) || GetsDetails(s, e) || !PicksNone(s, e)
  }

  ghost predicate Undisturbed(s: State, es: seq<Event>)
    requires Legal(s, es)
  {
    es == [] || (Undisturbed(s, es[..|es| - 1]) && !Disturbs(Run(s, es[..|es| - 1]), es[|es| - 1]))
  }

  /** The updates accepted in the run, in order. */
  ghost function Updates(s: State, es: seq<Event>): seq<Comment>
    requires Legal(s, es)
  {
    if es == [] then []
    else
      var prior, e := es[..|es| - 1], es[|es| - 1];
      Updates(s, prior) + if Posts(Run(s, prior), e) then [e.reply.comment] else []
  }

  /** While an issue stays selected, its comments are those that were there and the updates accepted since, in order. */
  lemma {:induction false} CommentsGrow(s: State, es: seq<Event>)
    requires Sound(s) && Legal(s, es) && Undisturbed(s, es)
    ensures Run(s, es).comments == s.comments + Updates(s, es)
    ensures s.selected.Some? ==> Run(s, es).selected.Some? && Run(s, es).selected.value.key == s.selected.value.key
  {
    hide Sound, Next, Enabled, Disturbs, DetailAfter, RowsAfter, SprintsAfter, AccountAfter, AsksAfter, Posts;
    if es != [] {
      var prior, e := es[..|es| - 1], es[|es| - 1];
      CommentsGrow(s, prior);
      RunSound(s, prior);
      EffectOf(Run(s, prior), e);
      CommentsStep(Run(s, prior), e);
    }
  }

  lemma CommentsStep(s: State, e: Event)
    requires Sound(s) && Enabled(s, e) && DetailAfter(s, e, Next(s, e)) && !Disturbs(s, e)
    ensures Next(s, e).comments == s.comments + if Posts(s, e) then [e.reply.comment] else []
    ensures s.selected.Some? ==> Next(s, e).selected.Some? && Next(s, e).selected.value.key == s.selected.value.key
  {
    hide Next, Picks, Stale, Shown, Awaited;
    if Changes(s, e) {
      assert Fits(s, s.pending[e.request]);
    }
  }
}
