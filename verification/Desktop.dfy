/**
 * The desktop client as a state machine. Requests capture revision counters when they are sent and
 * replies arrive in any order; one flag admits a single write at a time.
 */
module Desktop {
  import opened Bytes

  type Slug = string
  type Key = string

  datatype Membership = Membership(slug: Slug, role: string)
  datatype Issue = Issue(id: string, key: Key, home: Slug, milestone: Option<string>, text: string)
  datatype Comment = Comment(home: Slug, key: Key, text: string)
  datatype Milestone = Milestone(id: string, sprint: string)

  /** A request under way, with the revisions it captured and what it asks for. */
  datatype Request =
    | Restore(session: nat)
    | Login(session: nat)
    | Poll(session: nat)
    | Persist(session: nat)
    | List(session: nat, list: nat, home: Slug, more: bool)
    | Detail(session: nat, detail: nat, home: Slug, key: Key)
    | Lookup(session: nat, home: Slug, key: Key)
    | Sprints(session: nat, sprints: nat, home: Slug)
    | Milestones(session: nat, sprints: nat, home: Slug, sprint: string)
    | MilestoneIssues(session: nat, milestones: nat, home: Slug, milestone: string)
    | Save(session: nat, home: Slug, edited: Option<Key>)
    | Post(session: nat, detail: nat, home: Slug, key: Key)
    | Mutate(session: nat, detail: nat, home: Slug, key: Key)
    | Revoke

  datatype Reply =
    | Failed
    | Identified(memberships: Option<seq<Membership>>)
    | Started
    | Waiting
    | Granted
    | Page(issues: seq<Issue>, cursor: Option<string>)
    | Details(issue: Issue, comments: seq<Comment>)
    | Single(issue: Issue)
    | DefaultSprint(choice: Option<string>)
    | MilestonesOf(milestones: seq<Milestone>)
    | IssuesOf(issues: seq<Issue>)
    | Posted(comment: Comment)
    | Done

  datatype State = State(
    identity: Option<seq<Membership>>, workspace: nat,
    session: nat, list: nat, detail: nat, sprints: nat, milestones: nat,
    loading: bool, detailLoading: bool, saving: bool, editing: bool, editKey: Option<Key>, sprintsView: bool,
    issues: seq<Issue>, cursor: Option<string>, selected: Option<Issue>, comments: seq<Comment>,
    sprint: Option<string>, board: seq<Milestone>, milestone: Option<string>, milestoneIssues: Option<seq<Issue>>,
    pending: map<nat, Request>, sent: nat)

  function Slugged(s: State): Option<Slug> {
    if s.identity.Some? && s.workspace < |s.identity.value| then Some(s.identity.value[s.workspace].slug) else None
  }

  predicate CanWrite(s: State) {
    && s.identity.Some? && s.workspace < |s.identity.value|
    && (s.identity.value[s.workspace].role == "admin" || s.identity.value[s.workspace].role == "member")
  }

  function Send(s: State, r: Request): State {
    s.(pending := s.pending[s.sent := r], sent := s.sent + 1)
  }

  function IndexOf(issues: seq<Issue>, id: string): (r: Option<nat>)
    ensures r.Some? ==> r.value < |issues| && issues[r.value].id == id
    ensures r.None? ==> forall k | 0 <= k < |issues| :: issues[k].id != id
  {
    if issues == [] then None
    else if issues[0].id == id then Some(0)
    else
      match IndexOf(issues[1..], id)
      case None => None
      case Some(k) => Some(k + 1)
  }

  // ----- Starting: a new window restores the stored credential -----

  const OPENED :=
    Send(State(None, 0, 1, 0, 0, 0, 0, true, false, false, false, None, false, [], None, None, [], None, [], None, None,
               map[], 0),
         Restore(1))

  // ----- User actions -----

  function BeginLogin(s: State, serverOk: bool): State {
    if s.loading || !serverOk then s
    else Send(s.(loading := true, session := s.session + 1), Login(s.session + 1))
  }

  /** The button exists only while signed out. */
  function SignIn(s: State, serverOk: bool): State {
    if s.identity.Some? then s else BeginLogin(s, serverOk)
  }

  function CancelLogin(s: State): State {
    if s.identity.Some? || !s.loading || s.saving then s
    else s.(session := s.session + 1, loading := false)
  }

  function LoadSprints(s: State): State {
    if Slugged(s).None? then s
    else Send(s.(sprints := s.sprints + 1), Sprints(s.session, s.sprints + 1, Slugged(s).value))
  }

  function Refresh(s: State, more: bool): State {
    if s.saving || Slugged(s).None? then s
    else
      var t := if s.sprintsView && !more then LoadSprints(s) else s;
      Send(t.(list := t.list + 1, loading := true), List(t.session, t.list + 1, Slugged(s).value, more))
  }

  function SelectIssue(s: State, index: nat): State {
    if index >= |s.issues| || s.saving || Slugged(s).None? then s
    else
      Send(s.(selected := Some(s.issues[index]), comments := [], detail := s.detail + 1, detailLoading := true),
           Detail(s.session, s.detail + 1, Slugged(s).value, s.issues[index].key))
  }

  function OpenIssue(s: State, issue: Issue): State {
    if s.saving then s
    else
      var t := s.(sprintsView := false);
      match IndexOf(s.issues, issue.id)
      case Some(k) => SelectIssue(t, k)
      case None => SelectIssue(t.(issues := s.issues + [issue]), |s.issues|)
  }

  function OpenIssueKey(s: State, key: Key): State {
    if exists k | 0 <= k < |s.issues| :: s.issues[k].key == key then OpenIssue(s, FirstWithKey(s.issues, key))
    else if Slugged(s).None? then s
    else Send(s, Lookup(s.session, Slugged(s).value, key))
  }

  function FirstWithKey(issues: seq<Issue>, key: Key): (r: Issue)
    requires exists k | 0 <= k < |issues| :: issues[k].key == key
    ensures r in issues && r.key == key
  {
    if issues[0].key == key then issues[0] else FirstWithKey(issues[1..], key)
  }

  function ClearSprints(s: State): State {
    s.(sprints := s.sprints + 1, milestones := s.milestones + 1, sprint := None, board := [],
       milestone := None, milestoneIssues := None)
  }

  function Emptied(s: State): State {
    ClearSprints(s.(session := s.session + 1, detail := s.detail + 1, list := s.list + 1, issues := [], cursor := None,
                    selected := None, comments := [], detailLoading := false))
  }

  function SwitchWorkspace(s: State, index: nat): State {
    if s.saving || s.editing || s.identity.None? || index >= |s.identity.value| || index == s.workspace then s
    else Refresh(Emptied(s.(workspace := index)), false)
  }

  function OpenForm(s: State, edit: bool, overlay: bool): State {
    if !CanWrite(s) || s.saving || s.editing || overlay || (edit && (s.selected.None? || s.detailLoading)) then s
    else s.(editing := true, editKey := if edit then Some(s.selected.value.key) else None)
  }

  function CloseForm(s: State): State {
    if s.saving then s else s.(editing := false)
  }

  /** A write retires the list requests under way and raises the flag. */
  function Write(s: State, r: Request): State {
    Send(s.(list := s.list + 1, loading := false, saving := true), r)
  }

  function SaveIssue(s: State, titled: bool): State {
    if s.saving || !CanWrite(s) || !titled then s
    else Write(s, Save(s.session, Slugged(s).value, s.editKey))
  }

  /** An update or a change of the selected issue; an open overlay or an unfinished detail forbids it. */
  predicate MayChange(s: State, overlay: bool) {
    !s.saving && CanWrite(s) && !overlay && !s.editing && !s.detailLoading && s.selected.Some?
  }

  function PostUpdate(s: State, overlay: bool, blank: bool): State {
    if !MayChange(s, overlay) || blank then s
    else Write(s, Post(s.session, s.detail, Slugged(s).value, s.selected.value.key))
  }

  function MutateIssue(s: State, overlay: bool): State {
    if !MayChange(s, overlay) then s
    else Write(s, Mutate(s.session, s.detail, Slugged(s).value, s.selected.value.key))
  }

  function BeginLogOut(s: State): State {
    if s.saving then s else Write(s, Revoke)
  }

  /** Offered only while signed in. */
  function LogOut(s: State): State {
    if s.identity.None? then s else BeginLogOut(s)
  }

  function SelectSprint(s: State, id: Option<string>): State {
    var t := s.(milestones := s.milestones + 1, milestone := None, milestoneIssues := None, sprint := id, board := []);
    if id.None? || Slugged(s).None? then t
    else Send(t.(sprints := t.sprints + 1), Milestones(t.session, t.sprints + 1, Slugged(s).value, id.value))
  }

  function ToggleMilestone(s: State, id: string): State {
    var t := s.(milestones := s.milestones + 1, milestoneIssues := None);
    if s.milestone == Some(id) then t.(milestone := None)
    else if Slugged(s).None? then t.(milestone := Some(id))
    else Send(t.(milestone := Some(id)), MilestoneIssues(t.session, t.milestones, Slugged(s).value, id))
  }

  function ShowSprints(s: State, none: bool): State {
    var t := s.(sprintsView := true);
    if none then LoadSprints(t) else t
  }

  // ----- Replies -----

  /** The revisions the request captured are still the current ones. */
  predicate Current(s: State, r: Request) {
    match r
    case List(session, list, _, _) => session == s.session && list == s.list
    case Detail(session, detail, _, _) => session == s.session && detail == s.detail
    case Sprints(session, sprints, _) => session == s.session && sprints == s.sprints
    case Milestones(session, sprints, _, _) => session == s.session && sprints == s.sprints
    case MilestoneIssues(session, milestones, _, _) => session == s.session && milestones == s.milestones
    case Post(session, detail, _, _) => session == s.session && detail == s.detail
    case Mutate(session, detail, _, _) => session == s.session && detail == s.detail
    case Revoke => true
    case _ => r.session == s.session
  }

  /** What a server that answers the question may say; pages hold distinct issues of the organisation asked about. */
  predicate Honest(r: Request, a: Reply) {
    a == Failed ||
    match r
    case Restore(_) => a.Identified?
    case Login(_) => a.Started?
    case Poll(_) => a.Waiting? || a.Granted?
    case Persist(_) => a.Identified? && a.memberships.Some?
    case List(_, _, home, _) => a.Page? && Distinct(a.issues) && From(a.issues, home)
    case Detail(_, _, home, key) =>
      a.Details? && a.issue.home == home && a.issue.key == key
      && forall k | 0 <= k < |a.comments| :: a.comments[k].home == home && a.comments[k].key == key
    case Lookup(_, home, key) => a.Single? && a.issue.home == home && a.issue.key == key
    case Sprints(_, _, _) => a.DefaultSprint?
    case Milestones(_, _, _, sprint) =>
      a.MilestonesOf? && forall k | 0 <= k < |a.milestones| :: a.milestones[k].sprint == sprint
    case MilestoneIssues(_, _, home, milestone) =>
      a.IssuesOf? && From(a.issues, home) && forall k | 0 <= k < |a.issues| :: a.issues[k].milestone == Some(milestone)
    case Save(_, home, _) => a.Single? && a.issue.home == home
    case Post(_, _, home, key) => a.Posted? && a.comment.home == home && a.comment.key == key
    case Mutate(_, _, home, key) => a.Single? && a.issue.home == home && a.issue.key == key
    case Revoke => a.Done?
  }

  predicate Distinct(issues: seq<Issue>) {
    forall j, k | 0 <= j < k < |issues| :: issues[j].id != issues[k].id
  }

  predicate From(issues: seq<Issue>, home: Slug) {
    forall k | 0 <= k < |issues| :: issues[k].home == home
  }

  /** The rows with those of the next page that are not there yet. */
  function Extended(issues: seq<Issue>, page: seq<Issue>): seq<Issue> {
    if page == [] then issues
    else
      var before := Extended(issues, page[..|page| - 1]);
      var last := page[|page| - 1];
      if IndexOf(before, last.id).Some? then before else before + [last]
  }

  function Replaced(issues: seq<Issue>, issue: Issue): seq<Issue> {
    match IndexOf(issues, issue.id)
    case Some(k) => issues[k := issue]
    case None => issues
  }

  function Saved(s: State, issue: Issue): State {
    var rows := if IndexOf(s.issues, issue.id).Some? then Replaced(s.issues, issue) else [issue] + s.issues;
    var t := s.(issues := rows, selected := Some(issue), detail := s.detail + 1, comments := [], detailLoading := false,
                editing := false);
    match IndexOf(rows, issue.id)
    case Some(k) => SelectIssue(t, k)
    case None => t
  }

  function SignedOut(s: State): State {
    Emptied(s).(identity := None, workspace := 0, editing := false, editKey := None, sprintsView := false,
                loading := false)
  }

  /** What an accepted reply does once its request is no longer under way. */
  function Accepted(s: State, r: Request, a: Reply): State
    requires Honest(r, a)
  {
    match r
    case Restore(_) =>
      var t := s.(loading := false);
      if a == Failed || a.memberships.None? then t else Refresh(t.(identity := a.memberships), false)
    case Login(session) => if a == Failed then s.(loading := false) else Send(s, Poll(session))
    case Poll(session) =>
      if a == Failed then s.(loading := false)
      else if a == Waiting then Send(s, Poll(session))
      else Send(s.(saving := true), Persist(session))
    case Persist(_) =>
      var t := s.(loading := false, saving := false);
      if a == Failed then t else Refresh(t.(identity := a.memberships), false)
    case List(_, _, _, more) =>
      var t := s.(loading := false);
      if a == Failed then t
      else t.(cursor := a.cursor, issues := if more then Extended(s.issues, a.issues) else a.issues)
    case Detail(_, _, _, _) =>
      var t := s.(detailLoading := false);
      if a == Failed then t else t.(selected := Some(a.issue), comments := a.comments)
    case Lookup(_, _, _) => if a == Failed then s else OpenIssue(s, a.issue)
    case Sprints(_, _, _) => if a == Failed then s else SelectSprint(s, a.choice)
    case Milestones(_, _, _, _) => if a == Failed then s else s.(board := a.milestones)
    case MilestoneIssues(_, _, _, _) =>
      if a == Failed then s.(milestone := None) else s.(milestoneIssues := Some(a.issues))
    case Save(_, _, _) =>
      var t := s.(saving := false);
      if a == Failed then t else Saved(t, a.issue)
    case Post(_, _, _, _) =>
      var t := s.(saving := false);
      if a == Failed then t else t.(comments := s.comments + [a.comment])
    case Mutate(_, _, _, _) =>
      var t := s.(saving := false);
      if a == Failed then t else t.(issues := Replaced(s.issues, a.issue), selected := Some(a.issue))
    case Revoke =>
      var t := s.(saving := false);
      if a == Failed then t else SignedOut(t)
  }

  function Arrive(s: State, k: nat, a: Reply): State
    requires k in s.pending && Honest(s.pending[k], a)
  {
    var t := s.(pending := s.pending - {k});
    if Current(s, s.pending[k]) then Accepted(t, s.pending[k], a) else t
  }

  // ----- Runs -----

  datatype Event =
    | OnSignIn(serverOk: bool)
    | OnCancelLogin
    | OnRefresh(more: bool)
    | OnSelect(index: nat)
    | OnOpenIssue(issue: Issue)
    | OnOpenKey(key: Key)
    | OnSwitch(index: nat)
    | OnOpenForm(edit: bool, overlay: bool)
    | OnCloseForm
    | OnSave(titled: bool)
    | OnPost(overlay: bool, blank: bool)
    | OnMutate(overlay: bool)
    | OnLogOut
    | OnShowSprints(none: bool)
    | OnSelectSprint(id: Option<string>)
    | OnToggleMilestone(chosen: string)
    | OnReply(request: nat, reply: Reply)

  /** Replies answer requests under way; an issue opened from the screen belongs to the organisation on it. */
  predicate Enabled(s: State, e: Event) {
    match e
    case OnReply(k, a) => k in s.pending && Honest(s.pending[k], a)
    case OnOpenIssue(issue) => Slugged(s) == Some(issue.home)
    case _ => true
  }

  function Next(s: State, e: Event): State
    requires Enabled(s, e)
  {
    match e
    case OnSignIn(ok) => SignIn(s, ok)
    case OnCancelLogin => CancelLogin(s)
    case OnRefresh(more) => Refresh(s, more)
    case OnSelect(index) => SelectIssue(s, index)
    case OnOpenIssue(issue) => OpenIssue(s, issue)
    case OnOpenKey(key) => OpenIssueKey(s, key)
    case OnSwitch(index) => SwitchWorkspace(s, index)
    case OnOpenForm(edit, overlay) => OpenForm(s, edit, overlay)
    case OnCloseForm => CloseForm(s)
    case OnSave(titled) => SaveIssue(s, titled)
    case OnPost(overlay, blank) => PostUpdate(s, overlay, blank)
    case OnMutate(overlay) => MutateIssue(s, overlay)
    case OnLogOut => LogOut(s)
    case OnShowSprints(none) => ShowSprints(s, none)
    case OnSelectSprint(id) => SelectSprint(s, id)
    case OnToggleMilestone(id) => ToggleMilestone(s, id)
    case OnReply(k, a) => Arrive(s, k, a)
  }

  // ----- What every event keeps -----

  /** Requests whose reply lowers the flag. */
  predicate Writes(r: Request) {
    r.Persist? || r.Save? || r.Post? || r.Mutate? || r.Revoke?
  }

  /** A step of signing in that nothing has cancelled. */
  predicate SigningIn(s: State, r: Request) {
    (r.Restore? || r.Login? || r.Poll? || r.Persist?) && r.session == s.session
  }

  /**
   * No captured revision is ahead of its counter; a request of the current session is about what the
   * window still shows; and the request of a write still holds the revisions it captured.
   */
  predicate Fits(s: State, r: Request) {
    match r
    case Restore(session) => session <= s.session && (session == s.session ==> s.identity.None? && s.loading)
    case Login(session) => session <= s.session && (session == s.session ==> s.identity.None? && s.loading)
    case Poll(session) => session <= s.session && (session == s.session ==> s.identity.None? && s.loading)
    case Persist(session) => session == s.session && s.saving && s.identity.None? && s.loading
    case List(session, list, home, _) =>
      session <= s.session && list <= s.list && (session == s.session ==> Slugged(s) == Some(home))
    case Detail(session, detail, home, key) =>
      && session <= s.session && detail <= s.detail
      && (session == s.session ==>
            && Slugged(s) == Some(home)
            && (detail == s.detail ==> s.selected.Some? && s.selected.value.key == key))
    case Lookup(session, home, _) => session <= s.session && (session == s.session ==> Slugged(s) == Some(home))
    case Sprints(session, sprints, home) =>
      session <= s.session && sprints <= s.sprints && (session == s.session ==> Slugged(s) == Some(home))
    case Milestones(session, sprints, home, sprint) =>
      && session <= s.session && sprints <= s.sprints
      && (session == s.session ==>
            Slugged(s) == Some(home) && (sprints == s.sprints && s.sprint.Some? ==> s.sprint == Some(sprint)))
    case MilestoneIssues(session, milestones, home, milestone) =>
      && session <= s.session && milestones <= s.milestones
      && (session == s.session ==>
            Slugged(s) == Some(home)
            && (milestones == s.milestones && s.milestone.Some? ==> s.milestone == Some(milestone)))
    case Save(session, home, _) => session == s.session && s.saving && Slugged(s) == Some(home)
    case Post(session, detail, home, key) =>
      && session == s.session && detail == s.detail && s.saving && Slugged(s) == Some(home)
      && s.selected.Some? && s.selected.value.key == key
    case Mutate(session, detail, home, key) =>
      && session == s.session && detail == s.detail && s.saving && Slugged(s) == Some(home)
      && s.selected.Some? && s.selected.value.key == key
    case Revoke => s.saving && s.identity.Some?
  }

  /** One write at a time, one sign-in at a time, and a raised flag always has its write under way. */
  ghost predicate Tracked(s: State) {
    && (forall k <- s.pending :: k < s.sent && Fits(s, s.pending[k]))
    && (forall j, k :: j in s.pending && k in s.pending && Writes(s.pending[j]) && Writes(s.pending[k]) ==> j == k)
    && (s.saving ==> exists k <- s.pending :: Writes(s.pending[k]))
    && (forall j, k :: j in s.pending && k in s.pending && SigningIn(s, s.pending[j]) && SigningIn(s, s.pending[k]) ==>
        j == k)
  }

  predicate Within(home: Option<Slug>, issues: seq<Issue>) {
    forall k | 0 <= k < |issues| :: home == Some(issues[k].home)
  }

  predicate About(issue: Option<Issue>, comments: seq<Comment>) {
    forall k | 0 <= k < |comments| ::
      issue.Some? && comments[k].home == issue.value.home && comments[k].key == issue.value.key
  }

  predicate Planned(sprint: Option<string>, board: seq<Milestone>) {
    sprint.Some? ==> forall k | 0 <= k < |board| :: board[k].sprint == sprint.value
  }

  predicate Filed(milestone: Option<string>, issues: seq<Issue>) {
    milestone.Some? ==> forall k | 0 <= k < |issues| :: issues[k].milestone == milestone
  }

  /** Everything on the screen belongs to the selected organisation, issue, sprint and milestone. */
  predicate Shown(s: State) {
    && Distinct(s.issues) && Within(Slugged(s), s.issues)
    && (s.selected.Some? ==> Slugged(s) == Some(s.selected.value.home)) && About(s.selected, s.comments)
    && Planned(s.sprint, s.board)
    && (s.milestoneIssues.Some? ==>
        Within(Slugged(s), s.milestoneIssues.value) && Filed(s.milestone, s.milestoneIssues.value))
  }

  ghost predicate Coherent(s: State) {
    Tracked(s) && Shown(s)
  }

  /** A raised loading flag has a request under way whose reply is still wanted and lowers it. */
  ghost predicate Awaited(s: State) {
    && (s.detailLoading ==> exists k <- s.pending :: s.pending[k].Detail? && Current(s, s.pending[k]))
    && (s.loading ==> exists k <- s.pending :: Loads(s, s.pending[k]))
  }

  /** A step of signing in, or a current list. */
  predicate Loads(s: State, r: Request) {
    SigningIn(s, r) || (r.List? && Current(s, r))
  }

  ghost predicate Sound(s: State) {
    Coherent(s) && Awaited(s)
  }

  lemma OpenedSound()
    ensures Sound(OPENED)
  {
    assert Loads(OPENED, OPENED.pending[0]);
  }

  /** What separates a later state from an earlier one, as far as requests of the current session can tell. */
  predicate Later(s: State, t: State) {
    && s.session <= t.session && s.list <= t.list && s.detail <= t.detail
    && s.sprints <= t.sprints && s.milestones <= t.milestones
    && (s.session == t.session ==>
          && t.identity == s.identity && t.workspace == s.workspace
          && (s.identity.None? && s.loading ==> t.loading)
          && (s.detail == t.detail && s.selected.Some? ==>
              t.selected.Some? && t.selected.value.key == s.selected.value.key)
          && (s.sprints == t.sprints ==> t.sprint == s.sprint || t.sprint.None?)
          && (s.milestones == t.milestones ==> t.milestone == s.milestone || t.milestone.None?))
  }

  /** While a write is under way nothing moves what it captured. */
  predicate Guarded(s: State, t: State) {
    s.saving ==> t.saving && t.session == s.session && t.detail == s.detail
  }

  lemma LaterFits(s: State, t: State, r: Request)
    requires Fits(s, r) && Later(s, t) && (Writes(r) ==> Guarded(s, t))
    ensures Fits(t, r)
    ensures SigningIn(t, r) ==> SigningIn(s, r)
  {
  }

  /** Changing the screen in a guarded way keeps every request fitting. */
  lemma CarryTracked(s: State, t: State)
    requires Tracked(s) && Later(s, t) && Guarded(s, t)
    requires t.pending == s.pending && t.sent == s.sent && t.saving == s.saving
    ensures Tracked(t)
  {
    hide Fits, Later, Guarded, Writes, SigningIn;
    forall k <- s.pending ensures Fits(t, t.pending[k]) && (SigningIn(t, t.pending[k]) ==> SigningIn(s, s.pending[k])) {
      LaterFits(s, t, s.pending[k]);
    }
  }

  /** Sending a request that fits, and is no second write or sign-in, keeps track. */
  lemma SendTracked(s: State, r: Request)
    requires Tracked(s) && Fits(s, r)
    requires forall k <- s.pending ::
              !(Writes(r) && Writes(s.pending[k])) && !(SigningIn(s, r) && SigningIn(s, s.pending[k]))
    ensures Tracked(Send(s, r))
  {
    hide Fits, Writes, SigningIn;
    var t := Send(s, r);
    SendFits(s, r, r);
    forall k <- s.pending ensures Fits(t, s.pending[k]) {
      SendFits(s, r, s.pending[k]);
    }
    forall x | true ensures SigningIn(t, x) == SigningIn(s, x) {
      SendSigns(s, r, x);
    }
    if s.saving {
      var k :| k in s.pending && Writes(s.pending[k]);
      assert k in t.pending && t.pending[k] == s.pending[k];
    }
  }

  lemma SendFits(s: State, r: Request, x: Request)
    requires Fits(s, x)
    ensures Fits(Send(s, r), x)
  {
    LaterFits(s, Send(s, r), x);
  }

  lemma SendSigns(s: State, r: Request, x: Request)
    ensures SigningIn(Send(s, r), x) == SigningIn(s, x)
  {
  }

  /** A question about the window's organisation can always be sent. */
  lemma AskTracked(s: State, t: State, r: Request)
    requires Tracked(s) && Later(s, t) && Guarded(s, t)
    requires t.pending == s.pending && t.sent == s.sent && t.saving == s.saving
    requires Fits(t, r) && !Writes(r) && !SigningIn(t, r)
    ensures Tracked(Send(t, r))
  {
    hide Fits, Later, Guarded, Writes, SigningIn;
    CarryTracked(s, t);
    SendTracked(t, r);
  }

  lemma LoadSprintsTracked(s: State)
    requires Tracked(s)
    ensures Tracked(LoadSprints(s))
  {
    hide Tracked;
    if Slugged(s).Some? {
      AskTracked(s, s.(sprints := s.sprints + 1), Sprints(s.session, s.sprints + 1, Slugged(s).value));
    }
  }

  lemma RefreshTracked(s: State, more: bool)
    requires Tracked(s)
    ensures Tracked(Refresh(s, more))
  {
    hide Tracked;
    if !s.saving && Slugged(s).Some? {
      LoadSprintsTracked(s);
      var t := if s.sprintsView && !more then LoadSprints(s) else s;
      AskTracked(t, t.(list := t.list + 1, loading := true), List(t.session, t.list + 1, Slugged(s).value, more));
    }
  }

  lemma SelectIssueTracked(s: State, index: nat)
    requires Tracked(s)
    ensures Tracked(SelectIssue(s, index))
  {
    hide Tracked;
    if index < |s.issues| && !s.saving && Slugged(s).Some? {
      AskTracked(s, s.(selected := Some(s.issues[index]), comments := [], detail := s.detail + 1,
                       detailLoading := true),
                 Detail(s.session, s.detail + 1, Slugged(s).value, s.issues[index].key));
    }
  }

  /** A write starts only when none is under way. */
  lemma RaiseTracked(s: State, t: State, r: Request)
    requires Tracked(s) && !s.saving && Later(s, t) && t.pending == s.pending && t.sent == s.sent && t.saving
    requires Fits(t, r) && Writes(r) && forall k <- s.pending :: !(SigningIn(t, r) && SigningIn(t, s.pending[k]))
    ensures Tracked(Send(t, r))
  {
    hide Later, Writes, SigningIn;
    forall k <- s.pending
      ensures !Writes(s.pending[k]) && Fits(t, s.pending[k])
              && (SigningIn(t, s.pending[k]) ==> SigningIn(s, s.pending[k]))
    {
      WriteRaises(s, s.pending[k]);
      LaterFits(s, t, s.pending[k]);
    }
    hide Fits;
    assert Raised(t);
    RaisedTracked(t, r);
  }

  lemma WriteRaises(s: State, r: Request)
    requires Fits(s, r)
    ensures Writes(r) ==> s.saving
  {
  }

  /** The flag is up but its write is still to be sent. */
  ghost predicate Raised(s: State) {
    && s.saving
    && (forall k <- s.pending :: k < s.sent && Fits(s, s.pending[k]) && !Writes(s.pending[k]))
    && (forall j, k :: j in s.pending && k in s.pending && SigningIn(s, s.pending[j]) && SigningIn(s, s.pending[k]) ==>
        j == k)
  }

  lemma RaisedTracked(s: State, r: Request)
    requires Raised(s) && Fits(s, r) && Writes(r)
    requires forall k <- s.pending :: !(SigningIn(s, r) && SigningIn(s, s.pending[k]))
    ensures Tracked(Send(s, r))
  {
    hide Fits, Writes, SigningIn;
    var t := Send(s, r);
    SendFits(s, r, r);
    forall k <- s.pending ensures Fits(t, s.pending[k]) {
      SendFits(s, r, s.pending[k]);
    }
    forall x | true ensures SigningIn(t, x) == SigningIn(s, x) {
      SendSigns(s, r, x);
    }
    assert s.sent in t.pending && Writes(t.pending[s.sent]);
  }

  lemma WriteTracked(s: State, r: Request)
    requires Tracked(s) && !s.saving && s.identity.Some? && Writes(r) && !r.Persist?
    requires Fits(s.(list := s.list + 1, loading := false, saving := true), r)
    ensures Tracked(Write(s, r))
  {
    hide Tracked;
    RaiseTracked(s, s.(list := s.list + 1, loading := false, saving := true), r);
  }

  lemma SignInTracked(s: State, ok: bool)
    requires Tracked(s)
    ensures Tracked(SignIn(s, ok))
  {
    hide Tracked, SigningIn;
    if s.identity.None? && !s.loading && ok {
      var t := s.(loading := true, session := s.session + 1);
      if s.saving { SavingBusy(s); }
      CarryTracked(s, t);
      NoneOfNewSession(s, t);
      SendTracked(t, Login(s.session + 1));
    }
  }

  lemma NoneOfNewSession(s: State, t: State)
    requires Tracked(s) && s.session < t.session && t.pending == s.pending
    ensures forall k <- t.pending :: !SigningIn(t, t.pending[k])
  {
    forall k <- t.pending ensures !SigningIn(t, t.pending[k]) {
      assert Fits(s, s.pending[k]);
    }
  }

  /** A raised flag means a signed-in window or a sign-in under way. */
  lemma SavingBusy(s: State)
    requires Tracked(s) && s.saving
    ensures s.identity.Some? || s.loading
  {
    var k :| k in s.pending && Writes(s.pending[k]);
    assert Fits(s, s.pending[k]);
  }

  /** Taking a request off the list, and lowering the flag if it was the write. */
  function Removed(s: State, k: nat): State
    requires k in s.pending
  {
    s.(pending := s.pending - {k}, saving := s.saving && !Writes(s.pending[k]))
  }

  lemma RemovedTracked(s: State, k: nat)
    requires Tracked(s) && k in s.pending
    ensures Tracked(Removed(s, k))
    ensures SigningIn(s, s.pending[k]) ==> forall j <- Removed(s, k).pending :: !SigningIn(Removed(s, k), s.pending[j])
  {
    hide Writes, SigningIn, Fits;
    var t := Removed(s, k);
    forall j <- t.pending ensures Fits(t, s.pending[j]) && SigningIn(t, s.pending[j]) == SigningIn(s, s.pending[j]) {
      RemovedFits(s, k, s.pending[j]);
    }
    if t.saving {
      var j :| j in s.pending && Writes(s.pending[j]);
      assert j in t.pending;
    }
  }

  lemma RemovedFits(s: State, k: nat, r: Request)
    requires k in s.pending && Fits(s, r) && !(Writes(r) && Writes(s.pending[k]))
    ensures Fits(Removed(s, k), r) && SigningIn(Removed(s, k), r) == SigningIn(s, r)
  {
  }

  /** The reply to a write is always accepted. */
  lemma WriteIsCurrent(s: State, k: nat)
    requires Tracked(s) && k in s.pending && Writes(s.pending[k])
    ensures Current(s, s.pending[k]) && s.saving
  {
    assert Fits(s, s.pending[k]);
  }

  /** With nobody signed in and no sign-in under way, every request is of an earlier session. */
  lemma StrangerTracked(s: State, t: State)
    requires Tracked(s) && s.identity.None? && !s.saving && forall k <- s.pending :: !SigningIn(s, s.pending[k])
    requires t == s.(identity := t.identity, loading := false)
    ensures Tracked(t)
  {
    forall k <- s.pending ensures Fits(t, s.pending[k]) && !SigningIn(t, s.pending[k]) && !Writes(s.pending[k]) {
      assert Fits(s, s.pending[k]) && !SigningIn(s, s.pending[k]);
      StrangerFits(s, t, s.pending[k]);
    }
  }

  lemma StrangerFits(s: State, t: State, r: Request)
    requires Fits(s, r) && !SigningIn(s, r) && s.identity.None? && !s.saving
    requires t == s.(identity := t.identity, loading := false)
    ensures Fits(t, r) && !SigningIn(t, r) && !Writes(r)
  {
  }

  lemma CancelLoginTracked(s: State)
    requires Tracked(s)
    ensures Tracked(CancelLogin(s))
  {
    hide Tracked;
    if s.identity.None? && s.loading && !s.saving {
      CarryTracked(s, s.(session := s.session + 1, loading := false));
    }
  }

  lemma OpenIssueTracked(s: State, issue: Issue)
    requires Tracked(s)
    ensures Tracked(OpenIssue(s, issue))
  {
    hide Tracked, SelectIssue;
    if !s.saving {
      var t := s.(sprintsView := false);
      CarryTracked(s, t);
      match IndexOf(s.issues, issue.id)
      case Some(k) => SelectIssueTracked(t, k);
      case None =>
        CarryTracked(t, t.(issues := s.issues + [issue]));
        SelectIssueTracked(t.(issues := s.issues + [issue]), |s.issues|);
    }
  }

  lemma OpenIssueKeyTracked(s: State, key: Key)
    requires Tracked(s)
    ensures Tracked(OpenIssueKey(s, key))
  {
    hide Tracked, OpenIssue;
    if exists k | 0 <= k < |s.issues| :: s.issues[k].key == key {
      OpenIssueTracked(s, FirstWithKey(s.issues, key));
    } else if Slugged(s).Some? {
      AskTracked(s, s, Lookup(s.session, Slugged(s).value, key));
    }
  }

  lemma SwitchTracked(s: State, index: nat)
    requires Tracked(s)
    ensures Tracked(SwitchWorkspace(s, index))
  {
    hide Tracked, Refresh;
    if SwitchWorkspace(s, index) != s {
      var t := Emptied(s.(workspace := index));
      CarryTracked(s, t);
      RefreshTracked(t, false);
    }
  }

  lemma WritesTracked(s: State, titled: bool, overlay: bool, blank: bool)
    requires Tracked(s)
    ensures Tracked(SaveIssue(s, titled)) && Tracked(PostUpdate(s, overlay, blank))
    ensures Tracked(MutateIssue(s, overlay)) && Tracked(LogOut(s))
  {
    hide Tracked, Write;
    if !s.saving && s.identity.Some? {
      WriteTracked(s, Revoke);
      if CanWrite(s) {
        WriteTracked(s, Save(s.session, Slugged(s).value, s.editKey));
        if s.selected.Some? {
          WriteTracked(s, Post(s.session, s.detail, Slugged(s).value, s.selected.value.key));
          WriteTracked(s, Mutate(s.session, s.detail, Slugged(s).value, s.selected.value.key));
        }
      }
    }
  }

  lemma SelectSprintTracked(s: State, id: Option<string>)
    requires Tracked(s)
    ensures Tracked(SelectSprint(s, id))
  {
    hide Tracked;
    var t := s.(milestones := s.milestones + 1, milestone := None, milestoneIssues := None, sprint := id, board := []);
    if id.Some? && Slugged(s).Some? {
      AskTracked(s, t.(sprints := t.sprints + 1), Milestones(t.session, t.sprints + 1, Slugged(s).value, id.value));
    } else if id.None? {
      CarryTracked(s, t);
    } else {
      UnsluggedTracked(s, t);
    }
  }

  /** With no organisation selected, no request of this session is about sprints. */
  lemma UnsluggedTracked(s: State, t: State)
    requires Tracked(s) && Slugged(s).None? && s.milestones < t.milestones
    requires t == s.(milestones := t.milestones, milestone := None, milestoneIssues := None, sprint := t.sprint,
                     board := [])
    ensures Tracked(t)
  {
    hide SigningIn, Writes;
    forall k <- s.pending ensures Fits(t, s.pending[k]) && SigningIn(t, s.pending[k]) == SigningIn(s, s.pending[k]) {
      assert Fits(s, s.pending[k]);
      UnsluggedFits(s, t, s.pending[k]);
    }
  }

  lemma UnsluggedFits(s: State, t: State, r: Request)
    requires Fits(s, r) && Slugged(s).None? && s.milestones < t.milestones
    requires t == s.(milestones := t.milestones, milestone := None, milestoneIssues := None, sprint := t.sprint,
                     board := [])
    ensures Fits(t, r) && SigningIn(t, r) == SigningIn(s, r)
  {
  }

  lemma ToggleMilestoneTracked(s: State, id: string)
    requires Tracked(s)
    ensures Tracked(ToggleMilestone(s, id))
  {
    hide Tracked;
    var t := s.(milestones := s.milestones + 1, milestoneIssues := None);
    if s.milestone == Some(id) {
      CarryTracked(s, t.(milestone := None));
    } else if Slugged(s).None? {
      CarryTracked(s, t.(milestone := Some(id)));
    } else {
      AskTracked(s, t.(milestone := Some(id)), MilestoneIssues(t.session, t.milestones, Slugged(s).value, id));
    }
  }

  lemma FormsTracked(s: State, edit: bool, overlay: bool, none: bool)
    requires Tracked(s)
    ensures Tracked(OpenForm(s, edit, overlay)) && Tracked(CloseForm(s)) && Tracked(ShowSprints(s, none))
  {
    hide Tracked, LoadSprints;
    CarryTracked(s, OpenForm(s, edit, overlay));
    CarryTracked(s, CloseForm(s));
    CarryTracked(s, s.(sprintsView := true));
    LoadSprintsTracked(s.(sprintsView := true));
  }

  // ----- Replies keep track -----

  lemma SignInReplyTracked(s: State, r: Request, a: Reply)
    requires Tracked(s.(saving := false)) && (s.saving ==> r.Persist?)
    requires s.identity.None? && s.loading && forall k <- s.pending :: !SigningIn(s, s.pending[k])
    requires SigningIn(s, r) && Honest(r, a)
    ensures Tracked(Accepted(s, r, a))
  {
    hide Tracked, Refresh;
    var u := s.(saving := false);
    assert forall k <- u.pending :: !SigningIn(u, u.pending[k]);
    if r.Persist? || r.Restore? {
      StrangerTracked(u, u.(loading := false));
      if a != Failed && a.memberships.Some? {
        StrangerTracked(u, u.(identity := a.memberships, loading := false));
        RefreshTracked(u.(identity := a.memberships, loading := false), false);
      }
    } else if a == Failed {
      StrangerTracked(u, u.(loading := false));
    } else if a == Granted {
      RaiseTracked(u, u.(saving := true), Persist(r.session));
    } else {
      SendTracked(u, Poll(r.session));
    }
  }

  lemma SavedTracked(s: State, issue: Issue)
    requires Tracked(s) && !s.saving
    ensures Tracked(Saved(s, issue))
  {
    hide Tracked, SelectIssue;
    var rows := if IndexOf(s.issues, issue.id).Some? then Replaced(s.issues, issue) else [issue] + s.issues;
    var t := s.(issues := rows, selected := Some(issue), detail := s.detail + 1, comments := [], detailLoading := false,
                editing := false);
    CarryTracked(s, t);
    match IndexOf(rows, issue.id)
    case Some(k) => SelectIssueTracked(t, k);
    case None =>
  }

  lemma WriteReplyTracked(s: State, r: Request, a: Reply)
    requires Tracked(s.(saving := false)) && (r.Save? || r.Post? || r.Mutate? || r.Revoke?) && Honest(r, a)
    requires r.Mutate? ==> s.selected.Some? && s.selected.value.key == r.key
    ensures Tracked(Accepted(s, r, a))
  {
    hide Tracked, Saved, SignedOut, Replaced;
    var t := s.(saving := false);
    if a != Failed {
      match r
      case Save(_, _, _) => SavedTracked(t, a.issue);
      case Post(_, _, _, _) => CarryTracked(t, t.(comments := s.comments + [a.comment]));
      case Mutate(_, _, _, _) => CarryTracked(t, t.(issues := Replaced(s.issues, a.issue), selected := Some(a.issue)));
      case Revoke => SignedOutTracked(t);
    }
  }

  lemma SignedOutTracked(s: State)
    requires Tracked(s) && !s.saving
    ensures Tracked(SignedOut(s))
  {
    hide Tracked;
    CarryTracked(s, SignedOut(s));
  }

  lemma ReadReplyTracked(s: State, r: Request, a: Reply)
    requires Tracked(s) && !Writes(r) && !SigningIn(s, r) && Current(s, r) && Fits(s, r) && Honest(r, a)
    ensures Tracked(Accepted(s, r, a))
  {
    hide Tracked, OpenIssue, SelectSprint, Extended;
    match r
    case List(_, _, _, _) =>
      CarryTracked(s, Accepted(s, r, a));
    case Detail(_, _, _, _) =>
      CarryTracked(s, Accepted(s, r, a));
    case Lookup(_, _, _) => if a != Failed { OpenIssueTracked(s, a.issue); }
    case Sprints(_, _, _) => if a != Failed { SelectSprintTracked(s, a.choice); }
    case Milestones(_, _, _, _) => if a != Failed { CarryTracked(s, s.(board := a.milestones)); }
    case MilestoneIssues(_, _, _, _) =>
      CarryTracked(s, Accepted(s, r, a));
    case _ =>
  }

  // ----- What is shown belongs together -----

  lemma {:induction false} ExtendedDistinct(issues: seq<Issue>, page: seq<Issue>)
    requires Distinct(issues)
    ensures Distinct(Extended(issues, page))
    ensures issues <= Extended(issues, page)
    ensures forall k | |issues| <= k < |Extended(issues, page)| :: Extended(issues, page)[k] in page
  {
    if page != [] {
      ExtendedDistinct(issues, page[..|page| - 1]);
      var before := Extended(issues, page[..|page| - 1]);
      assert forall k | |issues| <= k < |before| :: before[k] in page[..|page| - 1] && before[k] in page;
    }
  }

  lemma ReplacedDistinct(issues: seq<Issue>, issue: Issue)
    requires Distinct(issues)
    ensures Distinct(Replaced(issues, issue)) && |Replaced(issues, issue)| == |issues|
    ensures forall k | 0 <= k < |issues| ::
              Replaced(issues, issue)[k] == issues[k] || Replaced(issues, issue)[k] == issue
  {
    var r := IndexOf(issues, issue.id);
    if r.Some? {
      assert Replaced(issues, issue) == issues[r.value := issue];
    }
  }

  lemma RefreshShown(s: State, more: bool)
    requires Shown(s)
    ensures Shown(Refresh(s, more)) && Shown(LoadSprints(s))
  {
    hide Distinct, Within, About, Planned, Filed;
  }

  lemma SelectIssueShown(s: State, index: nat)
    requires Shown(s)
    ensures Shown(SelectIssue(s, index))
  {
    hide Distinct, Planned, Filed;
  }

  lemma OpenIssueShown(s: State, issue: Issue)
    requires Shown(s) && Slugged(s) == Some(issue.home)
    ensures Shown(OpenIssue(s, issue))
  {
    hide SelectIssue;
    if !s.saving {
      var t := s.(sprintsView := false);
      match IndexOf(s.issues, issue.id)
      case Some(k) => SelectIssueShown(t, k);
      case None => SelectIssueShown(t.(issues := s.issues + [issue]), |s.issues|);
    }
  }

  lemma SwitchShown(s: State, index: nat)
    requires Shown(s)
    ensures Shown(SwitchWorkspace(s, index))
  {
    hide Refresh;
    if SwitchWorkspace(s, index) != s {
      RefreshShown(Emptied(s.(workspace := index)), false);
    }
  }

  lemma SavedShown(s: State, issue: Issue)
    requires Shown(s) && Slugged(s) == Some(issue.home)
    ensures Shown(Saved(s, issue))
  {
    hide SelectIssue, Replaced;
    var rows := if IndexOf(s.issues, issue.id).Some? then Replaced(s.issues, issue) else [issue] + s.issues;
    ReplacedDistinct(s.issues, issue);
    var t := s.(issues := rows, selected := Some(issue), detail := s.detail + 1, comments := [], detailLoading := false,
                editing := false);
    match IndexOf(rows, issue.id)
    case Some(k) => SelectIssueShown(t, k);
    case None =>
  }

  /** Nothing is shown before somebody signs in, so whoever does starts clean. */
  lemma IdentityShown(s: State, t: State)
    requires Shown(s) && Slugged(s).None? && t == s.(identity := t.identity, loading := t.loading)
    ensures Shown(t)
  {
    hide Distinct, Planned, Filed;
    WithinHome(None, s.issues);
    AboutSome(s.selected, s.comments);
    if s.milestoneIssues.Some? {
      WithinHome(None, s.milestoneIssues.value);
    }
  }

  lemma WithinHome(home: Option<Slug>, issues: seq<Issue>)
    requires Within(home, issues)
    ensures |issues| > 0 ==> home == Some(issues[0].home)
  {
  }

  lemma AboutSome(issue: Option<Issue>, comments: seq<Comment>)
    requires About(issue, comments)
    ensures |comments| > 0 ==> issue.Some? && comments[0].key == issue.value.key
  {
  }

  lemma SendShown(s: State, r: Request)
    requires Shown(s)
    ensures Shown(Send(s, r))
  {
    hide Distinct, Within, About, Planned, Filed;
  }

  lemma FormsShown(s: State, edit: bool, overlay: bool, none: bool)
    requires Shown(s)
    ensures Shown(OpenForm(s, edit, overlay)) && Shown(CloseForm(s)) && Shown(ShowSprints(s, none))
  {
    hide Distinct, Within, About, Planned, Filed;
  }

  lemma WritesShown(s: State, titled: bool, overlay: bool, blank: bool)
    requires Shown(s)
    ensures Shown(SaveIssue(s, titled)) && Shown(PostUpdate(s, overlay, blank))
    ensures Shown(MutateIssue(s, overlay)) && Shown(LogOut(s))
  {
    hide Distinct, Within, About, Planned, Filed, Write, Shown;
    forall r: Request | true ensures Shown(Write(s, r)) {
      WriteShown(s, r);
    }
  }

  lemma WriteShown(s: State, r: Request)
    requires Shown(s)
    ensures Shown(Write(s, r))
  {
    hide Distinct, Within, About, Planned, Filed;
  }

  lemma SelectSprintShown(s: State, id: Option<string>)
    requires Shown(s)
    ensures Shown(SelectSprint(s, id))
  {
    hide Distinct, Within, About, Filed, Send;
    var t := s.(milestones := s.milestones + 1, milestone := None, milestoneIssues := None, sprint := id, board := []);
    if id.Some? && Slugged(s).Some? {
      SendShown(t.(sprints := t.sprints + 1), Milestones(t.session, t.sprints + 1, Slugged(s).value, id.value));
    }
  }

  lemma ToggleMilestoneShown(s: State, id: string)
    requires Shown(s)
    ensures Shown(ToggleMilestone(s, id))
  {
    hide Distinct, Within, About, Planned, Filed, Send;
    var t := s.(milestones := s.milestones + 1, milestoneIssues := None);
    if s.milestone != Some(id) && Slugged(s).Some? {
      SendShown(t.(milestone := Some(id)), MilestoneIssues(t.session, t.milestones, Slugged(s).value, id));
    }
  }

  lemma SignInReplyShown(s: State, r: Request, a: Reply)
    requires Shown(s) && s.identity.None? && SigningIn(s, r) && Honest(r, a)
    ensures Shown(Accepted(s, r, a))
  {
    hide Shown, Refresh;
    match r
    case Restore(_) =>
      IdentityShown(s, s.(loading := false));
      if a != Failed && a.memberships.Some? {
        var t := s.(identity := a.memberships, loading := false);
        IdentityShown(s, t);
        RefreshShown(t, false);
      }
    case Persist(_) =>
      var u := s.(loading := false, saving := false);
      SameScreen(s, u);
      if a != Failed {
        var t := u.(identity := a.memberships);
        IdentityShown(u, t);
        RefreshShown(t, false);
      }
    case Login(_) => SameScreen(s, Accepted(s, r, a));
    case Poll(_) => SameScreen(s, Accepted(s, r, a));
  }

  lemma SameScreen(s: State, t: State)
    requires Shown(s)
    requires t == s.(loading := t.loading, saving := t.saving, pending := t.pending, sent := t.sent,
                     session := t.session)
    ensures Shown(t)
  {
    hide Distinct, Within, About, Planned, Filed;
  }

  lemma WriteReplyShown(s: State, r: Request, a: Reply)
    requires Shown(s) && (r.Save? || r.Post? || r.Mutate? || r.Revoke?) && Honest(r, a)
    requires !r.Revoke? ==> Slugged(s) == Some(r.home)
    requires r.Post? || r.Mutate? ==> s.selected.Some? && s.selected.value.key == r.key
    ensures Shown(Accepted(s, r, a))
  {
    hide Saved, Replaced, Distinct, Planned, Filed, SignedOut, Shown;
    var t := s.(saving := false);
    SameScreen(s, t);
    if a != Failed {
      match r
      case Save(_, _, _) => SavedShown(t, a.issue);
      case Post(_, _, _, _) => PostShown(t, a.comment);
      case Mutate(_, _, _, _) => MutateShown(t, a.issue);
      case Revoke => SignedOutShown(t);
    }
  }

  lemma PostShown(s: State, comment: Comment)
    requires Shown(s) && s.selected.Some? && Slugged(s) == Some(comment.home) && s.selected.value.key == comment.key
    ensures Shown(s.(comments := s.comments + [comment]))
  {
    hide Distinct, Within, Planned, Filed;
  }

  lemma MutateShown(s: State, issue: Issue)
    requires Shown(s) && s.selected.Some? && Slugged(s) == Some(issue.home) && s.selected.value.key == issue.key
    ensures Shown(s.(issues := Replaced(s.issues, issue), selected := Some(issue)))
  {
    hide Replaced, Distinct, Planned, Filed;
    ReplacedDistinct(s.issues, issue);
  }

  lemma SignedOutShown(s: State)
    ensures Shown(SignedOut(s))
  {
  }

  lemma ReadReplyShown(s: State, r: Request, a: Reply)
    requires Shown(s) && !Writes(r) && !SigningIn(s, r) && Current(s, r) && Fits(s, r) && Honest(r, a)
    ensures Shown(Accepted(s, r, a))
  {
    hide OpenIssue, SelectSprint, Extended;
    match r
    case List(_, _, _, more) => if a != Failed { ListShown(s, a, more); }
    case Detail(_, _, _, _) =>
    case Lookup(_, _, _) => if a != Failed { OpenIssueShown(s, a.issue); }
    case Sprints(_, _, _) => if a != Failed { SelectSprintShown(s, a.choice); }
    case Milestones(_, _, _, _) =>
    case MilestoneIssues(_, _, _, _) =>
    case _ =>
  }

  lemma ListShown(s: State, a: Reply, more: bool)
    requires Shown(s) && a.Page? && Distinct(a.issues) && Slugged(s).Some? && From(a.issues, Slugged(s).value)
    ensures Shown(s.(loading := false, cursor := a.cursor,
                     issues := if more then Extended(s.issues, a.issues) else a.issues))
  {
    hide Extended;
    ExtendedDistinct(s.issues, a.issues);
    var rows := Extended(s.issues, a.issues);
    forall k | 0 <= k < |rows| ensures Slugged(s) == Some(rows[k].home) {
      assert k < |s.issues| ==> rows[k] == s.issues[k];
      assert k >= |s.issues| ==> rows[k] in a.issues;
    }
  }

  // ----- Runs keep it -----

  /** A sign-in step other than the last finds no write under way, and nobody signed in. */
  lemma SignInQuiet(s: State, k: nat)
    requires Tracked(s) && k in s.pending && SigningIn(s, s.pending[k])
    ensures s.identity.None? && s.loading && (s.saving ==> s.pending[k].Persist?) && !Removed(s, k).saving
  {
    assert Fits(s, s.pending[k]);
    if s.saving && !Writes(s.pending[k]) {
      var j :| j in s.pending && Writes(s.pending[j]);
      assert Fits(s, s.pending[j]) && !SigningIn(s, s.pending[j]);
      WriterSignedIn(s, s.pending[j]);
    }
  }

  lemma WriterSignedIn(s: State, r: Request)
    requires Fits(s, r) && Writes(r) && s.identity.None?
    ensures SigningIn(s, r)
  {
  }

  /** An accepted reply keeps the state coherent. */
  lemma AcceptedCoherent(s: State, k: nat, a: Reply)
    requires Coherent(s) && k in s.pending && Honest(s.pending[k], a) && Current(s, s.pending[k])
    ensures Coherent(Accepted(s.(pending := s.pending - {k}), s.pending[k], a))
  {
    hide Accepted, Shown, Tracked, Honest, Fits, Writes, SigningIn, Current;
    var r := s.pending[k];
    var t := s.(pending := s.pending - {k});
    FitsOf(s, k);
    RemovedTracked(s, k);
    SameScreen(s, t);
    Detached(s, k, r);
    if SigningIn(s, r) {
      SignInQuiet(s, k);
      assert t.(saving := false) == Removed(s, k);
      SignInReplyTracked(t, r, a);
      SignInReplyShown(t, r, a);
    } else if Writes(r) {
      WriteReady(s, k);
      WriteReplyTracked(t, r, a);
      WriteReplyShown(t, r, a);
    } else {
      ReadReplyTracked(t, r, a);
      ReadReplyShown(t, r, a);
    }
  }

  /** A request is judged by the counters and the screen, not by what else is under way. */
  lemma Detached(s: State, k: nat, r: Request)
    requires k in s.pending && Fits(s, r)
    ensures var t := s.(pending := s.pending - {k});
            && Current(t, r) == Current(s, r) && Fits(t, r)
            && (forall x :: SigningIn(t, x) == SigningIn(s, x) == SigningIn(Removed(s, k), x))
            && Removed(s, k) == if Writes(s.pending[k]) then t.(saving := false) else t
  {
  }

  lemma WriteReady(s: State, k: nat)
    requires Tracked(s) && k in s.pending && Writes(s.pending[k]) && !SigningIn(s, s.pending[k])
    ensures var r := s.pending[k];
            && (r.Save? || r.Post? || r.Mutate? || r.Revoke?)
            && (!r.Revoke? ==> Slugged(s) == Some(r.home))
            && (r.Post? || r.Mutate? ==> s.selected.Some? && s.selected.value.key == r.key)
  {
    assert Fits(s, s.pending[k]);
  }

  lemma ReplyCoherent(s: State, k: nat, a: Reply)
    requires Coherent(s) && k in s.pending && Honest(s.pending[k], a)
    ensures Coherent(Arrive(s, k, a))
  {
    hide Accepted, Shown, Tracked, Honest, Writes;
    if Current(s, s.pending[k]) {
      AcceptedCoherent(s, k, a);
    } else {
      if Writes(s.pending[k]) { WriteIsCurrent(s, k); }
      RemovedTracked(s, k);
      RemovedScreen(s, k);
      assert Arrive(s, k, a) == Removed(s, k);
    }
  }

  lemma FitsOf(s: State, k: nat)
    requires Tracked(s) && k in s.pending
    ensures Fits(s, s.pending[k])
  {
  }

  lemma RemovedScreen(s: State, k: nat)
    requires Shown(s) && k in s.pending
    ensures Shown(Removed(s, k))
  {
    SameScreen(s, Removed(s, k));
  }

  lemma ActionCoherent(s: State, e: Event)
    requires Coherent(s) && Enabled(s, e) && !e.OnReply?
    ensures Coherent(Next(s, e))
  {
    hide Tracked, Shown, SignIn, CancelLogin, Refresh, SelectIssue, OpenIssue, OpenIssueKey, SwitchWorkspace, OpenForm,
      CloseForm, SaveIssue, PostUpdate, MutateIssue, LogOut, ShowSprints, SelectSprint, ToggleMilestone, Arrive;
    match e
    case OnSignIn(ok) => SignInTracked(s, ok); SignInShown(s, ok);
    case OnCancelLogin => CancelLoginTracked(s); SignInShown(s, true);
    case OnRefresh(more) => RefreshTracked(s, more); RefreshShown(s, more);
    case OnSelect(index) => SelectIssueTracked(s, index); SelectIssueShown(s, index);
    case OnOpenIssue(issue) => OpenIssueTracked(s, issue); OpenIssueShown(s, issue);
    case OnOpenKey(key) => OpenIssueKeyTracked(s, key); OpenIssueKeyShown(s, key);
    case OnSwitch(index) => SwitchTracked(s, index); SwitchShown(s, index);
    case OnOpenForm(edit, overlay) => FormsTracked(s, edit, overlay, false); FormsShown(s, edit, overlay, false);
    case OnCloseForm => FormsTracked(s, false, false, false); FormsShown(s, false, false, false);
    case OnSave(titled) => WritesTracked(s, titled, false, false); WritesShown(s, titled, false, false);
    case OnPost(overlay, blank) => WritesTracked(s, false, overlay, blank); WritesShown(s, false, overlay, blank);
    case OnMutate(overlay) => WritesTracked(s, false, overlay, false); WritesShown(s, false, overlay, false);
    case OnLogOut => WritesTracked(s, false, false, false); WritesShown(s, false, false, false);
    case OnShowSprints(none) => FormsTracked(s, false, false, none); FormsShown(s, false, false, none);
    case OnSelectSprint(id) => SelectSprintTracked(s, id); SelectSprintShown(s, id);
    case OnToggleMilestone(chosen) => ToggleMilestoneTracked(s, chosen); ToggleMilestoneShown(s, chosen);
  }

  lemma SignInShown(s: State, ok: bool)
    requires Shown(s)
    ensures Shown(SignIn(s, ok)) && Shown(CancelLogin(s))
  {
    hide Distinct, Within, About, Planned, Filed;
  }

  lemma OpenIssueKeyShown(s: State, key: Key)
    requires Shown(s)
    ensures Shown(OpenIssueKey(s, key))
  {
    hide OpenIssue, Distinct, About, Planned, Filed;
    if exists k | 0 <= k < |s.issues| :: s.issues[k].key == key {
      OpenIssueShown(s, FirstWithKey(s.issues, key));
    }
  }

  // ----- The loading flags -----

  /** Nobody signed in means no detail to wait for. */
  lemma SignedOutIdle(s: State)
    requires Sound(s) && s.identity.None?
    ensures !s.detailLoading
  {
    hide Shown;
    assert forall k <- s.pending :: Fits(s, s.pending[k]);
  }

  predicate Numbered(s: State) {
    forall k <- s.pending :: k < s.sent
  }

  /** A flag that stays up keeps its request; one that is raised gets one. */
  lemma CarryAwaited(s: State, t: State)
    requires Awaited(s) && forall k <- s.pending :: k in t.pending && t.pending[k] == s.pending[k]
    requires t.detailLoading ==> s.detailLoading && t.session == s.session && t.detail == s.detail
    requires t.loading ==> s.loading && t.session == s.session && t.list == s.list
    ensures Awaited(t)
  {
    if t.detailLoading {
      var k :| k in s.pending && s.pending[k].Detail? && Current(s, s.pending[k]);
      assert t.pending[k].Detail? && Current(t, t.pending[k]);
    }
    if t.loading {
      var k :| k in s.pending && Loads(s, s.pending[k]);
      assert Loads(t, t.pending[k]);
    }
  }

  /** Sending a request takes none away. */
  lemma SendAwaited(s: State, t: State, r: Request)
    requires Numbered(s) && Awaited(s) && t.pending == s.pending && t.sent == s.sent
    requires t.detailLoading ==>
              (r.Detail? && Current(t, r)) || (s.detailLoading && t.session == s.session && t.detail == s.detail)
    requires t.loading ==> Loads(t, r) || (s.loading && t.session == s.session && t.list == s.list)
    ensures Numbered(Send(t, r)) && Awaited(Send(t, r))
  {
    var u := Send(t, r);
    assert u.pending[s.sent] == r;
    if u.detailLoading && !(r.Detail? && Current(t, r)) {
      var k :| k in s.pending && s.pending[k].Detail? && Current(s, s.pending[k]);
      assert u.pending[k].Detail? && Current(u, u.pending[k]);
    }
    if u.loading {
      if Loads(t, r) {
        assert Loads(u, u.pending[s.sent]);
      } else {
        var k :| k in s.pending && Loads(s, s.pending[k]);
        assert Loads(u, u.pending[k]);
      }
    }
  }

  lemma LoadSprintsAwaited(s: State)
    requires Numbered(s) && Awaited(s)
    ensures Numbered(LoadSprints(s)) && Awaited(LoadSprints(s))
  {
    hide Numbered, Awaited;
    if Slugged(s).Some? {
      SendAwaited(s, s.(sprints := s.sprints + 1), Sprints(s.session, s.sprints + 1, Slugged(s).value));
    }
  }

  /** A refresh that is sent is waited for, whatever was before. */
  lemma RefreshAwaited(s: State, more: bool)
    requires Numbered(s) && (Awaited(s) || (!s.saving && Slugged(s).Some? && !s.detailLoading))
    ensures Numbered(Refresh(s, more)) && Awaited(Refresh(s, more))
  {
    hide Numbered, Awaited;
    if !s.saving && Slugged(s).Some? {
      var s' := if Awaited(s) then s else s.(loading := false);
      assert Numbered(s') && Awaited(s') by { LoweredAwaited(s); }
      LoadSprintsAwaited(s');
      var u := if s'.sprintsView && !more then LoadSprints(s') else s';
      var t := if s.sprintsView && !more then LoadSprints(s) else s;
      SendAwaited(u, t.(list := t.list + 1, loading := true), List(t.session, t.list + 1, Slugged(s).value, more));
    }
  }

  lemma LoweredAwaited(s: State)
    requires Numbered(s)
    ensures Numbered(s.(loading := false)) && (!s.detailLoading ==> Awaited(s.(loading := false)))
  {
  }

  lemma SelectIssueAwaited(s: State, index: nat)
    requires Numbered(s) && Awaited(s)
    ensures Numbered(SelectIssue(s, index)) && Awaited(SelectIssue(s, index))
  {
    hide Numbered, Awaited;
    if index < |s.issues| && !s.saving && Slugged(s).Some? {
      SendAwaited(s, s.(selected := Some(s.issues[index]), comments := [], detail := s.detail + 1,
                        detailLoading := true),
                  Detail(s.session, s.detail + 1, Slugged(s).value, s.issues[index].key));
    }
  }

  lemma OpenIssueAwaited(s: State, issue: Issue)
    requires Numbered(s) && Awaited(s)
    ensures Numbered(OpenIssue(s, issue)) && Awaited(OpenIssue(s, issue))
  {
    hide Awaited, SelectIssue, IndexOf;
    var t := s.(sprintsView := false);
    var u := t.(issues := s.issues + [issue]);
    CarryAwaited(s, t);
    CarryAwaited(s, u);
    match IndexOf(s.issues, issue.id)
    case Some(k) => SelectIssueAwaited(t, k);
    case None => SelectIssueAwaited(u, |s.issues|);
  }

  lemma OpenIssueKeyAwaited(s: State, key: Key)
    requires Numbered(s) && Awaited(s)
    ensures Awaited(OpenIssueKey(s, key))
  {
    hide Awaited, Numbered, OpenIssue;
    if exists k | 0 <= k < |s.issues| :: s.issues[k].key == key {
      OpenIssueAwaited(s, FirstWithKey(s.issues, key));
    } else if Slugged(s).Some? {
      SendAwaited(s, s, Lookup(s.session, Slugged(s).value, key));
    }
  }

  lemma SwitchAwaited(s: State, index: nat)
    requires Numbered(s) && Awaited(s)
    ensures Awaited(SwitchWorkspace(s, index))
  {
    hide Awaited, Refresh;
    if SwitchWorkspace(s, index) != s {
      RefreshAwaited(Emptied(s.(workspace := index)), false);
    }
  }

  lemma WriteAwaited(s: State, r: Request)
    requires Numbered(s) && Awaited(s)
    ensures Awaited(Write(s, r))
  {
    hide Awaited, Numbered;
    SendAwaited(s, s.(list := s.list + 1, loading := false, saving := true), r);
  }

  lemma WritesAwaited(s: State, titled: bool, overlay: bool, blank: bool)
    requires Numbered(s) && Awaited(s)
    ensures Awaited(SaveIssue(s, titled)) && Awaited(PostUpdate(s, overlay, blank))
    ensures Awaited(MutateIssue(s, overlay)) && Awaited(LogOut(s))
  {
    hide Awaited, Numbered, Write;
    forall r: Request | true ensures Awaited(Write(s, r)) {
      WriteAwaited(s, r);
    }
  }

  lemma FormsAwaited(s: State, edit: bool, overlay: bool, none: bool)
    requires Numbered(s) && Awaited(s)
    ensures Awaited(OpenForm(s, edit, overlay)) && Awaited(CloseForm(s)) && Awaited(ShowSprints(s, none))
  {
    hide Awaited, LoadSprints;
    CarryAwaited(s, OpenForm(s, edit, overlay));
    CarryAwaited(s, CloseForm(s));
    var t := s.(sprintsView := true);
    CarryAwaited(s, t);
    LoadSprintsAwaited(t);
  }

  lemma SelectSprintAwaited(s: State, id: Option<string>)
    requires Numbered(s) && Awaited(s)
    ensures Awaited(SelectSprint(s, id))
  {
    hide Awaited, Numbered;
    var t := s.(milestones := s.milestones + 1, milestone := None, milestoneIssues := None, sprint := id, board := []);
    if id.Some? && Slugged(s).Some? {
      SendAwaited(s, t.(sprints := t.sprints + 1), Milestones(t.session, t.sprints + 1, Slugged(s).value, id.value));
    } else {
      CarryAwaited(s, t);
    }
  }

  lemma ToggleAwaited(s: State, id: string)
    requires Numbered(s) && Awaited(s)
    ensures Awaited(ToggleMilestone(s, id))
  {
    hide Awaited, Numbered;
    var t := s.(milestones := s.milestones + 1, milestoneIssues := None);
    if s.milestone != Some(id) && Slugged(s).Some? {
      SendAwaited(s, t.(milestone := Some(id)), MilestoneIssues(t.session, t.milestones, Slugged(s).value, id));
    } else {
      CarryAwaited(s, ToggleMilestone(s, id));
    }
  }

  lemma SignInAwaited(s: State, ok: bool)
    requires Sound(s) && Numbered(s)
    ensures Awaited(SignIn(s, ok)) && Awaited(CancelLogin(s))
  {
    hide Coherent, Awaited;
    if s.identity.None? {
      SignedOutIdle(s);
      if !s.loading {
        SendAwaited(s, s.(loading := true, session := s.session + 1), Login(s.session + 1));
      }
      CarryAwaited(s, s.(session := s.session + 1, loading := false));
    }
  }

  lemma ActionAwaited(s: State, e: Event)
    requires Sound(s) && Numbered(s) && Enabled(s, e) && !e.OnReply?
    ensures Awaited(Next(s, e))
  {
    hide Coherent, Awaited, Numbered, SignIn, CancelLogin, Refresh, SelectIssue, OpenIssue, OpenIssueKey,
      SwitchWorkspace, OpenForm, CloseForm, SaveIssue, PostUpdate, MutateIssue, LogOut, ShowSprints, SelectSprint,
      ToggleMilestone, Arrive;
    match e
    case OnSignIn(ok) => SignInAwaited(s, ok);
    case OnCancelLogin => SignInAwaited(s, true);
    case OnRefresh(more) => RefreshAwaited(s, more);
    case OnSelect(index) => SelectIssueAwaited(s, index);
    case OnOpenIssue(issue) => OpenIssueAwaited(s, issue);
    case OnOpenKey(key) => OpenIssueKeyAwaited(s, key);
    case OnSwitch(index) => SwitchAwaited(s, index);
    case OnOpenForm(edit, overlay) => FormsAwaited(s, edit, overlay, false);
    case OnCloseForm => FormsAwaited(s, false, false, false);
    case OnSave(titled) => WritesAwaited(s, titled, false, false);
    case OnPost(overlay, blank) => WritesAwaited(s, false, overlay, blank);
    case OnMutate(overlay) => WritesAwaited(s, false, overlay, false);
    case OnLogOut => WritesAwaited(s, false, false, false);
    case OnShowSprints(none) => FormsAwaited(s, false, false, none);
    case OnSelectSprint(id) => SelectSprintAwaited(s, id);
    case OnToggleMilestone(chosen) => ToggleAwaited(s, chosen);
  }

  lemma SavedAwaited(s: State, issue: Issue)
    requires Numbered(s) && Awaited(s)
    ensures Awaited(Saved(s, issue))
  {
    hide Awaited, SelectIssue, IndexOf, Replaced;
    var rows := if IndexOf(s.issues, issue.id).Some? then Replaced(s.issues, issue) else [issue] + s.issues;
    var t := s.(issues := rows, selected := Some(issue), detail := s.detail + 1, comments := [], detailLoading := false,
                editing := false);
    CarryAwaited(s, t);
    match IndexOf(rows, issue.id)
    case Some(k) => SelectIssueAwaited(t, k);
    case None =>
  }

  /** A step of signing in raises no other flag, and either goes on or lowers its own. */
  lemma SignInReplyAwaited(s: State, r: Request, a: Reply)
    requires Numbered(s) && !s.detailLoading && SigningIn(s, r) && Honest(r, a)
    ensures Awaited(Accepted(s, r, a))
  {
    hide Awaited, Refresh;
    var t := s.(loading := false);
    LoweredAwaited(s);
    CarryAwaited(t, t.(saving := false));
    match r
    case Restore(_) =>
      CarryAwaited(t, t.(identity := if a == Failed then None else a.memberships));
      RefreshAwaited(t.(identity := if a == Failed then None else a.memberships), false);
    case Login(session) => SendAwaited(t, s, Poll(session));
    case Poll(session) =>
      SendAwaited(t, s, Poll(session));
      SendAwaited(t, s.(saving := true), Persist(session));
    case Persist(_) =>
      var u := t.(saving := false, identity := if a == Failed then None else a.memberships);
      CarryAwaited(t, u);
      RefreshAwaited(u, false);
  }

  /** A reply that was waited for lowers its flag. */
  lemma LoadReplyAwaited(s: State, r: Request, a: Reply)
    requires Honest(r, a) && (r.List? || r.Detail?)
    requires Awaited(if r.Detail? then s.(detailLoading := false) else s.(loading := false))
    ensures Awaited(Accepted(s, r, a))
  {
    hide Awaited, Extended, Honest;
    CarryAwaited(if r.Detail? then s.(detailLoading := false) else s.(loading := false), Accepted(s, r, a));
  }

  /** These replies change what is shown. */
  lemma ShowReplyAwaited(s: State, r: Request, a: Reply)
    requires Awaited(s) && Honest(r, a) && (r.Milestones? || r.MilestoneIssues? || r.Post? || r.Mutate?)
    ensures Awaited(Accepted(s, r, a))
  {
    hide Awaited, Replaced, Honest, Extended, OpenIssue, SelectSprint, Saved, SignedOut, Refresh;
    CarryAwaited(s, Accepted(s, r, a));
  }

  /** These send again, or forget everything. */
  lemma OpenReplyAwaited(s: State, r: Request, a: Reply)
    requires Numbered(s) && Awaited(s) && Honest(r, a) && (r.Lookup? || r.Sprints? || r.Save? || r.Revoke?)
    ensures Awaited(Accepted(s, r, a))
  {
    hide Awaited, OpenIssue, SelectSprint, Saved;
    CarryAwaited(s, s.(saving := false));
    if a != Failed {
      match r
      case Lookup(_, _, _) => OpenIssueAwaited(s, a.issue);
      case Sprints(_, _, _) => SelectSprintAwaited(s, a.choice);
      case Save(_, _, _) => SavedAwaited(s.(saving := false), a.issue);
      case Revoke => CarryAwaited(s, SignedOut(s.(saving := false)));
    }
  }

  /** Taking a request off the list matters only to the flag it was to lower. */
  lemma RemovedAwaited(s: State, k: nat)
    requires Awaited(s) && k in s.pending
    ensures var t := s.(pending := s.pending - {k}); var r := s.pending[k];
            && (!Current(s, r) || !(r.Detail? || Loads(s, r)) ==> Awaited(t))
            && (r.Detail? ==> Awaited(t.(detailLoading := false)))
            && (r.List? ==> Awaited(t.(loading := false)))
  {
    var t := s.(pending := s.pending - {k});
    if j :| j in s.pending && j != k && s.pending[j].Detail? && Current(s, s.pending[j]) {
      assert t.pending[j] == s.pending[j] && Current(t, t.pending[j]);
    }
    if j :| j in s.pending && j != k && Loads(s, s.pending[j]) {
      assert t.pending[j] == s.pending[j] && Loads(t, t.pending[j]) && Loads(t.(detailLoading := false), t.pending[j]);
    }
  }

  lemma ArriveAwaited(s: State, k: nat, a: Reply)
    requires Sound(s) && Numbered(s) && k in s.pending && Honest(s.pending[k], a)
    ensures Awaited(Arrive(s, k, a))
  {
    hide Awaited, Shown, Tracked, Accepted, Honest, Fits;
    var r := s.pending[k];
    RemovedAwaited(s, k);
    if Current(s, r) {
      if SigningIn(s, r) {
        SignInQuiet(s, k);
        SignedOutIdle(s);
        SignInReplyAwaited(s.(pending := s.pending - {k}), r, a);
      } else if r.List? || r.Detail? {
        LoadReplyAwaited(s.(pending := s.pending - {k}), r, a);
      } else if r.Milestones? || r.MilestoneIssues? || r.Post? || r.Mutate? {
        ShowReplyAwaited(s.(pending := s.pending - {k}), r, a);
      } else {
        OpenReplyAwaited(s.(pending := s.pending - {k}), r, a);
      }
    }
  }

  lemma TrackedNumbers(s: State)
    requires Tracked(s)
    ensures Numbered(s)
  {
  }

  lemma StepSound(s: State, e: Event)
    requires Sound(s) && Enabled(s, e)
    ensures Sound(Next(s, e))
  {
    hide Tracked, Shown, Awaited, Numbered, Arrive;
    TrackedNumbers(s);
    match e
    case OnReply(k, a) => ReplyCoherent(s, k, a); ArriveAwaited(s, k, a);
    case _ => ActionCoherent(s, e); ActionAwaited(s, e);
  }

  predicate Legal(s: State, es: seq<Event>)
    decreases es, 0
  {
    es == [] || (Legal(s, es[..|es| - 1]) && Enabled(Run(s, es[..|es| - 1]), es[|es| - 1]))
  }

  function Run(s: State, es: seq<Event>): State
    requires Legal(s, es)
    decreases es, 1
  {
    if es == [] then s else Next(Run(s, es[..|es| - 1]), es[|es| - 1])
  }

  /** In every order of actions and replies the screen stays coherent and the flag keeps its write. */
  lemma {:induction false} RunSound(s: State, es: seq<Event>)
    requires Sound(s) && Legal(s, es)
    ensures Sound(Run(s, es))
  {
    hide Sound, Enabled, Next;
    if es != [] {
      RunSound(s, es[..|es| - 1]);
      StepSound(Run(s, es[..|es| - 1]), es[|es| - 1]);
    }
  }

  // ----- The flag -----

  /** While the flag is up exactly one write is under way, its revisions are current, and its reply lowers the flag. */
  lemma FlagHasItsWrite(s: State)
    requires Sound(s) && s.saving
    ensures exists k <- s.pending ::
              && Writes(s.pending[k]) && Current(s, s.pending[k])
              && (forall j <- s.pending :: Writes(s.pending[j]) ==> j == k)
  {
    var k :| k in s.pending && Writes(s.pending[k]);
    WriteIsCurrent(s, k);
  }

  lemma WriteReplyLowers(s: State, k: nat, a: Reply)
    requires Sound(s) && k in s.pending && Writes(s.pending[k]) && Honest(s.pending[k], a)
    ensures !Arrive(s, k, a).saving
  {
    hide Fits, Current, Tracked, Shown, Awaited, IndexOf, Extended, Replaced, OpenIssue, SelectSprint;
    WriteIsCurrent(s, k);
  }

  /** A detail flag never hangs: a current request is under way, and whatever its reply says lowers the flag. */
  lemma DetailFlagIsLowered(s: State)
    requires Sound(s) && s.detailLoading
    ensures s.identity.Some?
    ensures exists k <- s.pending ::
              && s.pending[k].Detail? && Current(s, s.pending[k])
              && (forall a | Honest(s.pending[k], a) :: !Arrive(s, k, a).detailLoading)
  {
    hide Shown, Tracked;
    if s.identity.None? {
      SignedOutIdle(s);
    }
    var k :| k in s.pending && s.pending[k].Detail? && Current(s, s.pending[k]);
  }

  /**
   * Neither does the other: after a sign-in a current list is under way and whatever its reply says lowers the
   * flag; before it a step of signing in is, which lowers the flag or sends the next step.
   */
  lemma LoadingFlagIsLowered(s: State)
    requires Sound(s) && s.loading
    ensures exists k <- s.pending ::
              && Current(s, s.pending[k])
              && (if s.identity.Some? then s.pending[k].List? else SigningIn(s, s.pending[k]))
              && !Arrive(s, k, Failed).loading
              && (forall a | Honest(s.pending[k], a) && Arrive(s, k, a).loading ::
                    s.identity.None? && exists j <- Arrive(s, k, a).pending ::
                      Loads(Arrive(s, k, a), Arrive(s, k, a).pending[j]))
  {
    hide Shown, Tracked, Arrive;
    var k :| k in s.pending && Loads(s, s.pending[k]);
    LoaderIs(s, k);
    forall a | Honest(s.pending[k], a)
      ensures Arrive(s, k, a).loading ==> exists j <- Arrive(s, k, a).pending ::
                Loads(Arrive(s, k, a), Arrive(s, k, a).pending[j])
    {
      TrackedNumbers(s);
      ArriveAwaited(s, k, a);
    }
  }

  lemma LoaderIs(s: State, k: nat)
    requires Sound(s) && k in s.pending && Loads(s, s.pending[k])
    ensures Current(s, s.pending[k]) && (if s.identity.Some? then s.pending[k].List? else SigningIn(s, s.pending[k]))
    ensures !Arrive(s, k, Failed).loading
    ensures s.identity.Some? ==> forall a | Honest(s.pending[k], a) :: !Arrive(s, k, a).loading
  {
    hide Shown, Accepted, Honest;
    var r := s.pending[k];
    assert Fits(s, r);
    forall a | Honest(r, a) && (a == Failed || r.List?) ensures !Arrive(s, k, a).loading {
      ReplyLowers(s.(pending := s.pending - {k}), r, a);
    }
    assert Honest(r, Failed) by { FailedIsHonest(r); }
  }

  lemma FailedIsHonest(r: Request)
    ensures Honest(r, Failed)
  {
  }

  lemma ReplyLowers(s: State, r: Request, a: Reply)
    requires Honest(r, a) && (r.List? || (a == Failed && (r.Restore? || r.Login? || r.Poll? || r.Persist?)))
    ensures !Accepted(s, r, a).loading
  {
    hide Refresh, Extended, OpenIssue, SelectSprint, Saved, Replaced, SignedOut;
  }

  // ----- Stale replies -----

  /** Counters only rise and a request, once taken off the list, never returns. */
  predicate Follows(s: State, t: State) {
    && s.session <= t.session && s.list <= t.list && s.detail <= t.detail
    && s.sprints <= t.sprints && s.milestones <= t.milestones && s.sent <= t.sent
    && (forall k <- t.pending :: k < s.sent ==> k in s.pending && t.pending[k] == s.pending[k])
  }

  lemma FollowsTrans(s: State, t: State, u: State)
    requires Follows(s, t) && Follows(t, u)
    ensures Follows(s, u)
  {
  }

  /** Bumping counters and sending one request. */
  lemma SentFollows(s: State, t: State, r: Request)
    requires s.session <= t.session && s.list <= t.list && s.detail <= t.detail
    requires s.sprints <= t.sprints && s.milestones <= t.milestones && s.sent == t.sent && s.pending == t.pending
    ensures Follows(s, t) && Follows(s, Send(t, r))
  {
  }

  lemma RefreshFollows(s: State, more: bool)
    ensures Follows(s, LoadSprints(s)) && Follows(s, Refresh(s, more))
  {
    hide Follows;
    SentFollows(s, s.(sprints := s.sprints + 1),
                Sprints(s.session, s.sprints + 1, if Slugged(s).Some? then Slugged(s).value else ""));
    SentFollows(s, s, Revoke);
    if !s.saving && Slugged(s).Some? {
      var t := if s.sprintsView && !more then LoadSprints(s) else s;
      SentFollows(t, t.(list := t.list + 1, loading := true), List(t.session, t.list + 1, Slugged(s).value, more));
      FollowsTrans(s, t, Refresh(s, more));
    }
  }

  lemma SelectFollows(s: State, index: nat)
    ensures Follows(s, SelectIssue(s, index))
  {
    hide Follows, Send;
    SentFollows(s, s, Revoke);
    if index < |s.issues| && Slugged(s).Some? {
      SentFollows(s, s.(selected := Some(s.issues[index]), comments := [], detail := s.detail + 1,
                        detailLoading := true),
                  Detail(s.session, s.detail + 1, Slugged(s).value, s.issues[index].key));
    }
  }

  lemma SelectSprintFollows(s: State, id: Option<string>)
    ensures Follows(s, SelectSprint(s, id))
  {
    hide Follows, Send;
    var t := s.(milestones := s.milestones + 1, milestone := None, milestoneIssues := None, sprint := id, board := []);
    if id.Some? && Slugged(s).Some? {
      SentFollows(s, t.(sprints := t.sprints + 1), Milestones(t.session, t.sprints + 1, Slugged(s).value, id.value));
    } else {
      SentFollows(s, t, Revoke);
    }
  }

  lemma OpenIssueFollows(s: State, issue: Issue)
    ensures Follows(s, OpenIssue(s, issue))
  {
    hide SelectIssue;
    var t := s.(sprintsView := false);
    var u := t.(issues := s.issues + [issue]);
    match IndexOf(s.issues, issue.id)
    case Some(k) => SelectFollows(t, k);
    case None => SelectFollows(u, |s.issues|);
  }

  lemma SavedFollows(s: State, issue: Issue)
    ensures Follows(s, Saved(s, issue))
  {
    hide Replaced, SelectIssue;
    var rows := if IndexOf(s.issues, issue.id).Some? then Replaced(s.issues, issue) else [issue] + s.issues;
    var t := s.(issues := rows, selected := Some(issue), detail := s.detail + 1, comments := [], detailLoading := false,
                editing := false);
    match IndexOf(rows, issue.id)
    case Some(k) => SelectFollows(t, k);
    case None =>
  }

  lemma SwitchFollows(s: State, index: nat)
    ensures Follows(s, SwitchWorkspace(s, index))
  {
    hide Refresh;
    var t := Emptied(s.(workspace := index));
    RefreshFollows(t, false);
  }

  lemma WritesFollow(s: State, titled: bool, overlay: bool, blank: bool)
    ensures Follows(s, SaveIssue(s, titled)) && Follows(s, PostUpdate(s, overlay, blank))
    ensures Follows(s, MutateIssue(s, overlay)) && Follows(s, LogOut(s))
  {
    hide Write, Follows;
    forall r: Request | true ensures Follows(s, Write(s, r)) {
      SentFollows(s, s.(list := s.list + 1, loading := false, saving := true), r);
      WriteIs(s, r);
    }
    SentFollows(s, s, Revoke);
  }

  lemma WriteIs(s: State, r: Request)
    ensures Write(s, r) == Send(s.(list := s.list + 1, loading := false, saving := true), r)
  {
  }

  lemma SessionFollows(s: State, ok: bool)
    ensures Follows(s, SignIn(s, ok)) && Follows(s, CancelLogin(s))
  {
    hide Follows, Send;
    SentFollows(s, s, Revoke);
    SentFollows(s, s.(loading := true, session := s.session + 1), Login(s.session + 1));
    SentFollows(s, s.(session := s.session + 1, loading := false), Revoke);
  }

  lemma FormsFollow(s: State, edit: bool, overlay: bool)
    ensures Follows(s, OpenForm(s, edit, overlay)) && Follows(s, CloseForm(s))
  {
    hide Follows, Send;
    SentFollows(s, OpenForm(s, edit, overlay), Revoke);
    SentFollows(s, CloseForm(s), Revoke);
  }

  lemma ToggleFollows(s: State, id: string)
    ensures Follows(s, ToggleMilestone(s, id))
  {
    hide Follows, Send;
    var t := s.(milestones := s.milestones + 1, milestoneIssues := None);
    var r := MilestoneIssues(t.session, t.milestones, if Slugged(s).Some? then Slugged(s).value else "", id);
    SentFollows(s, t.(milestone := None), r);
    SentFollows(s, t.(milestone := Some(id)), r);
  }

  lemma ActionFollows(s: State, e: Event)
    requires Enabled(s, e) && !e.OnReply?
    ensures Follows(s, Next(s, e))
  {
    hide Refresh, OpenIssue, LoadSprints, SelectIssue, SelectSprint, SwitchWorkspace, SignIn, CancelLogin, OpenForm,
      CloseForm, ToggleMilestone, SaveIssue, PostUpdate, MutateIssue, LogOut, OpenIssueKey, ShowSprints, Arrive,
      Follows;
    match e
    case OnSignIn(ok) => SessionFollows(s, ok);
    case OnCancelLogin => SessionFollows(s, true);
    case OnRefresh(more) => RefreshFollows(s, more);
    case OnSelect(index) => SelectFollows(s, index);
    case OnOpenIssue(issue) => OpenIssueFollows(s, issue);
    case OnOpenKey(key) => OpenIssueKeyFollows(s, key);
    case OnSwitch(index) => SwitchFollows(s, index);
    case OnOpenForm(edit, overlay) => FormsFollow(s, edit, overlay);
    case OnCloseForm => FormsFollow(s, false, false);
    case OnSave(titled) => WritesFollow(s, titled, false, false);
    case OnPost(overlay, blank) => WritesFollow(s, false, overlay, blank);
    case OnMutate(overlay) => WritesFollow(s, false, overlay, false);
    case OnLogOut => WritesFollow(s, false, false, false);
    case OnShowSprints(none) => ShowSprintsFollows(s, none);
    case OnSelectSprint(id) => SelectSprintFollows(s, id);
    case OnToggleMilestone(chosen) => ToggleFollows(s, chosen);
  }

  lemma OpenIssueKeyFollows(s: State, key: Key)
    ensures Follows(s, OpenIssueKey(s, key))
  {
    hide OpenIssue;
    if exists k | 0 <= k < |s.issues| :: s.issues[k].key == key {
      OpenIssueFollows(s, FirstWithKey(s.issues, key));
    }
  }

  lemma ShowSprintsFollows(s: State, none: bool)
    ensures Follows(s, ShowSprints(s, none))
  {
    hide LoadSprints;
    RefreshFollows(s.(sprintsView := true), false);
  }

  lemma SignInReplyFollows(s: State, r: Request, a: Reply)
    requires Honest(r, a) && (r.Restore? || r.Login? || r.Poll? || r.Persist?)
    ensures Follows(s, Accepted(s, r, a))
  {
    hide Refresh, Follows;
    var t := s.(loading := false, saving := s.saving && !r.Persist?);
    SentFollows(s, t, Revoke);
    SentFollows(s, s, Poll(r.session));
    SentFollows(s, s.(saving := true), Persist(r.session));
    if a.Identified? && a.memberships.Some? {
      var u := t.(identity := a.memberships);
      SentFollows(s, u, Revoke);
      RefreshFollows(u, false);
      FollowsTrans(s, u, Refresh(u, false));
    }
  }

  /** Other replies send nothing, unless they open an issue or select a sprint. */
  lemma ReplyFollows(s: State, r: Request, a: Reply)
    requires Honest(r, a) && !(r.Restore? || r.Login? || r.Poll? || r.Persist?)
    requires a == Failed || !(r.Lookup? || r.Sprints? || r.Save?)
    ensures Follows(s, Accepted(s, r, a))
  {
    hide Follows, OpenIssue, SelectSprint, Saved, Extended, Replaced, Refresh, Send, Honest, SignedOut;
    match r
    case List(_, _, _, _) => SentFollows(s, Accepted(s, r, a), Revoke);
    case Detail(_, _, _, _) => SentFollows(s, Accepted(s, r, a), Revoke);
    case Milestones(_, _, _, _) => SentFollows(s, Accepted(s, r, a), Revoke);
    case MilestoneIssues(_, _, _, _) => SentFollows(s, Accepted(s, r, a), Revoke);
    case Lookup(_, _, _) => SentFollows(s, s, Revoke);
    case Sprints(_, _, _) => SentFollows(s, s, Revoke);
    case Save(_, _, _) => SentFollows(s, s.(saving := false), Revoke);
    case Post(_, _, _, _) => SentFollows(s, Accepted(s, r, a), Revoke);
    case Mutate(_, _, _, _) => SentFollows(s, Accepted(s, r, a), Revoke);
    case Revoke => RevokeFollows(s); SentFollows(s, s.(saving := false), Revoke);
  }

  lemma RevokeFollows(s: State)
    ensures Follows(s, SignedOut(s.(saving := false)))
  {
    hide Follows;
    SentFollows(s, SignedOut(s.(saving := false)), Revoke);
  }

  lemma AcceptedFollows(s: State, r: Request, a: Reply)
    requires Honest(r, a)
    ensures Follows(s, Accepted(s, r, a))
  {
    hide Follows, OpenIssue, SelectSprint, Saved, Refresh;
    if r.Restore? || r.Login? || r.Poll? || r.Persist? {
      SignInReplyFollows(s, r, a);
    } else if a == Failed || !(r.Lookup? || r.Sprints? || r.Save?) {
      ReplyFollows(s, r, a);
    } else if r.Lookup? {
      OpenIssueFollows(s, a.issue);
    } else if r.Sprints? {
      SelectSprintFollows(s, a.choice);
    } else {
      var t := s.(saving := false);
      SentFollows(s, t, Revoke);
      SavedFollows(t, a.issue);
      FollowsTrans(s, t, Saved(t, a.issue));
    }
  }

  lemma StepFollows(s: State, e: Event)
    requires Enabled(s, e)
    ensures Follows(s, Next(s, e))
  {
    match e
    case OnReply(k, a) =>
      hide Accepted, Honest, Current;
      var t := s.(pending := s.pending - {k});
      AcceptedFollows(t, s.pending[k], a);
      FollowsTrans(s, t, Accepted(t, s.pending[k], a));
    case _ => ActionFollows(s, e);
  }

  /** Some counter has moved past the request. */
  predicate Stale(s: State, r: Request) {
    !r.Revoke? &&
    (|| r.session < s.session
     || (r.List? && r.list < s.list)
     || ((r.Detail? || r.Post? || r.Mutate?) && r.detail < s.detail)
     || ((r.Sprints? || r.Milestones?) && r.sprints < s.sprints)
     || (r.MilestoneIssues? && r.milestones < s.milestones))
  }

  lemma StaleIsNotCurrent(s: State, r: Request)
    requires Stale(s, r)
    ensures !Current(s, r)
  {
  }

  /** A request that has gone stale stays stale, so that its reply changes nothing whenever it arrives. */
  lemma {:induction false} StaleStaysStale(s: State, es: seq<Event>, k: nat)
    requires Legal(s, es) && k in s.pending && k < s.sent && Stale(s, s.pending[k])
    ensures Follows(s, Run(s, es))
    ensures k in Run(s, es).pending ==> Run(s, es).pending[k] == s.pending[k] && Stale(Run(s, es), s.pending[k])
  {
    hide Enabled, Next;
    if es != [] {
      StaleStaysStale(s, es[..|es| - 1], k);
      StepFollows(Run(s, es[..|es| - 1]), es[|es| - 1]);
      FollowsTrans(s, Run(s, es[..|es| - 1]), Run(s, es));
    }
  }

  lemma StaleIsInert(s: State, es: seq<Event>, k: nat, a: Reply)
    requires Legal(s, es) && k in s.pending && k < s.sent && Stale(s, s.pending[k])
    requires k in Run(s, es).pending && Honest(s.pending[k], a)
    ensures Run(s, es).pending[k] == s.pending[k]
    ensures Arrive(Run(s, es), k, a) == Run(s, es).(pending := Run(s, es).pending - {k})
  {
    hide Run, Legal, Accepted, Honest, Stale, Current;
    StaleStaysStale(s, es, k);
    StaleIsNotCurrent(Run(s, es), s.pending[k]);
  }

  /** Replies to what was asked before a change of organisation change nothing afterwards. */
  lemma PreviousOrganisationIsSilent(s: State, index: nat, es: seq<Event>, k: nat, a: Reply)
    requires Sound(s) && k in s.pending && SwitchWorkspace(s, index).workspace != s.workspace
    requires Legal(SwitchWorkspace(s, index), es) && k in Run(SwitchWorkspace(s, index), es).pending
             && Honest(s.pending[k], a)
    ensures var t := Run(SwitchWorkspace(s, index), es);
            t.pending[k] == s.pending[k] && Arrive(t, k, a) == t.(pending := t.pending - {k})
  {
    hide Run, Legal, Arrive, Accepted, Honest, Shown;
    SwitchRetires(s, index, k);
    StaleIsInert(SwitchWorkspace(s, index), es, k, a);
  }

  lemma SwitchRetires(s: State, index: nat, k: nat)
    requires Tracked(s) && k in s.pending && SwitchWorkspace(s, index).workspace != s.workspace
    ensures var t := SwitchWorkspace(s, index);
            k in t.pending && t.pending[k] == s.pending[k] && k < t.sent && Stale(t, s.pending[k])
  {
    assert k < s.sent && Fits(s, s.pending[k]);
  }

  /** The event starts a write. */
  predicate StartsWrite(s: State, e: Event)
    requires Enabled(s, e)
  {
    (e.OnSave? || e.OnPost? || e.OnMutate? || e.OnLogOut?) && Next(s, e).saving && !s.saving
  }

  /** A list asked for before a write never overwrites what the write leaves on the screen. */
  lemma WriteSilencesLists(s: State, e: Event, es: seq<Event>, k: nat, a: Reply)
    requires Sound(s) && k in s.pending && s.pending[k].List? && Enabled(s, e) && StartsWrite(s, e)
    requires Legal(Next(s, e), es) && k in Run(Next(s, e), es).pending && Honest(s.pending[k], a)
    ensures var t := Run(Next(s, e), es);
            t.pending[k] == s.pending[k] && Arrive(t, k, a) == t.(pending := t.pending - {k})
  {
    hide Run, Legal, Arrive, Accepted, Honest, Shown, Next, Enabled;
    WriteRetires(s, e, k);
    StaleIsInert(Next(s, e), es, k, a);
  }

  lemma WriteRetires(s: State, e: Event, k: nat)
    requires Tracked(s) && k in s.pending && s.pending[k].List? && Enabled(s, e) && StartsWrite(s, e)
    ensures var t := Next(s, e);
            k in t.pending && t.pending[k] == s.pending[k] && k < t.sent && Stale(t, s.pending[k])
  {
    hide Arrive, IndexOf, FirstWithKey, Tracked, Fits, Stale;
    ListFits(s, k);
    forall r: Request | true ensures WriteRetiresList(s, Write(s, r), k) {
      WriteRetired(s, r, k);
    }
  }

  predicate WriteRetiresList(s: State, t: State, k: nat)
    requires k in s.pending
  {
    k in t.pending && t.pending[k] == s.pending[k] && k < t.sent && Stale(t, s.pending[k])
  }

  lemma ListFits(s: State, k: nat)
    requires Tracked(s) && k in s.pending && s.pending[k].List?
    ensures k < s.sent && s.pending[k].list <= s.list
  {
    assert Fits(s, s.pending[k]);
  }

  lemma WriteRetired(s: State, r: Request, k: nat)
    requires k in s.pending && s.pending[k].List? && k < s.sent && s.pending[k].list <= s.list
    ensures WriteRetiresList(s, Write(s, r), k)
  {
  }

  /** Milestones can stay behind when no sprint is selected: giving up a sprint does not retire its request. */
  lemma MilestonesCanOutliveSprint(s: State, sprint: string, milestones: seq<Milestone>)
    requires Slugged(s).Some? && forall k | 0 <= k < |milestones| :: milestones[k].sprint == sprint
    ensures var t := SelectSprint(SelectSprint(s, Some(sprint)), None);
            && s.sent in t.pending && Honest(t.pending[s.sent], MilestonesOf(milestones))
            && var u := Arrive(t, s.sent, MilestonesOf(milestones));
               u.sprint.None? && u.board == milestones
  {
  }
}
