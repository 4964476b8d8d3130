/**
 * The life of a GitHub installation: binding it to an organisation, asking for its repositories to be
 * read again, applying a listing, suspension and deletion. A generation number fences late workers.
 * Every method is one transaction and every run is any interleaving of them.
 */
module Installations {
  import opened Bytes
  import H = Handshake

  type Workspace = nat
  type Id = nat
  type RepoId = nat

  datatype Installation = Installation(
    login: string, owner: Option<Workspace>, verified: bool, synced: bool, error: Option<string>,
    suspended: bool, deleted: bool, generation: nat)

  datatype Repo = Repo(
    workspace: Workspace, installation: Id, owner: string, name: string, branch: string, connected: bool)

  /** One entry of the provider's listing. */
  datatype Listed = Listed(id: RepoId, owner: string, name: string, branch: string)

  /** What a worker captured: the binding it works for and the generation it saw. */
  datatype Sync = Sync(installation: Id, workspace: Option<Workspace>, generation: nat)

  datatype Kind = SyncRepos | SyncState
  datatype Job = Job(kind: Kind, sync: Sync)

  /** What an evidence write captured before it fetched anything. */
  datatype RepoRef = RepoRef(repo: RepoId, workspace: Workspace, installation: Id, generation: nat)

  /** What the user authorisation flow verified. */
  datatype Verified = Verified(id: Id, account: nat, login: string, kind: string)

  datatype State = State(
    workspaces: set<Workspace>, installations: map<Id, Installation>, repos: map<RepoId, Repo>,
    jobs: seq<Job>, evidence: seq<(RepoRef, string)>, handshake: H.Tables)

  const EMPTY := State({}, map[], map[], [], [], H.EMPTY)

  datatype Error = NotFound | InstallationConflict | RepositoryConflict | VerificationRequired | StaleSync
  datatype Outcome = Committed(state: State) | Refused(error: Error)

  // ----- Binding -----

  /** The evidence came back complete and for the installation that was asked for. */
  predicate Genuine(a: H.Evidence, v: Verified) {
    v.id == a.candidate && v.id > 0 && v.account > 0 && v.login != "" && (v.kind == "User" || v.kind == "Organization")
  }

  /** Another installation still holds the organisation's single slot. */
  predicate SlotTaken(installations: map<Id, Installation>, w: Workspace, id: Id) {
    exists i <- installations :: i != id && installations[i].owner == Some(w) && !installations[i].deleted
  }

  /** Releases the slot from installations other than the one being bound. */
  function Released(installations: map<Id, Installation>, w: Workspace, id: Id): map<Id, Installation> {
    map i <- installations ::
      if i != id && installations[i].owner == Some(w)
      then installations[i].(owner := None, generation := installations[i].generation + 1)
      else installations[i]
  }

  function BoundRow(installations: map<Id, Installation>, w: Workspace, v: Verified): Installation {
    if v.id in installations then
      installations[v.id].(login := v.login, owner := Some(w), verified := true, synced := false, error := None,
                           generation := installations[v.id].generation + 1)
    else
      Installation(v.login, Some(w), true, false, None, false, false, 1)
  }

  function Bound(s: State, a: H.Evidence, v: Verified, admin: bool, live: bool, now: H.Time, later: H.Time): Outcome {
    if !Genuine(a, v) || !H.Held(s.handshake, a, admin, live, now) then Refused(NotFound)
    else if v.id in s.installations && s.installations[v.id].owner.Some?
      && s.installations[v.id].owner != Some(a.workspace) then
      Refused(InstallationConflict)
    else if v.id in s.installations && s.installations[v.id].deleted then Refused(InstallationConflict)
    else if SlotTaken(s.installations, a.workspace, v.id) then Refused(InstallationConflict)
    else if !H.Held(s.handshake, a, admin, live, later) then Refused(NotFound)
    else
      var row := BoundRow(s.installations, a.workspace, v);
      var job := Job(if row.suspended then SyncState else SyncRepos, Sync(v.id, Some(a.workspace), row.generation));
      Committed(s.(installations := Released(s.installations, a.workspace, v.id)[v.id := row],
                   jobs := s.jobs + [job], handshake := H.Finished(s.handshake, a)))
  }

  // ----- Asking for a new reading -----

  predicate Owns(installations: map<Id, Installation>, w: Workspace, id: Id) {
    id in installations && installations[id].owner == Some(w)
  }

  /** Takes the next generation of the installation the organisation owns and queues the work. */
  ghost function Requested(s: State, w: Workspace, expected: Option<Id>, retrySuspended: bool): Outcome {
    if !exists i :: Owns(s.installations, w, i) then Refused(NotFound)
    else
      var id :| Owns(s.installations, w, id);
      var row := s.installations[id];
      if expected.Some? && expected.value != id then Refused(StaleSync)
      else if !row.verified then Refused(VerificationRequired)
      else if row.deleted || (row.suspended && !retrySuspended) then Refused(StaleSync)
      else Committed(Requeued(s, id, w))
  }

  function Requeued(s: State, id: Id, w: Workspace): State
    requires id in s.installations
  {
    var row := s.installations[id].(generation := s.installations[id].generation + 1, synced := false, error := None);
    var job := Job(if row.suspended then SyncState else SyncRepos, Sync(id, Some(w), row.generation));
    s.(installations := s.installations[id := row], jobs := s.jobs + [job])
  }

  /** A retry by an administrator; it may ask again about a suspended installation. */
  ghost function Retried(s: State, w: Workspace, admin: bool): Outcome {
    if w !in s.workspaces || !admin then Refused(NotFound) else Requested(s, w, None, true)
  }

  /** An event or the scheduler asks; the organisation was read before the transaction began. */
  ghost function Nudged(s: State, w: Workspace, id: Id): Outcome {
    if w !in s.workspaces then Refused(NotFound) else Requested(s, w, Some(id), false)
  }

  // ----- Applying a listing -----

  /** The captured binding is still the one in force. */
  predicate Current(s: State, k: Sync) {
    && k.installation in s.installations && k.workspace.Some?
    && var row := s.installations[k.installation];
       row.owner == k.workspace && row.generation == k.generation && row.verified && !row.deleted && !row.suspended
  }

  function Branch(listed: Listed): string {
    if listed.branch == "" then "main" else listed.branch
  }

  /** The rows after the listing is written one entry at a time; a row of another organisation aborts. */
  function Upserted(repos: map<RepoId, Repo>, w: Workspace, id: Id, listing: seq<Listed>): Option<map<RepoId, Repo>> {
    if listing == [] then Some(repos)
    else
      match Upserted(repos, w, id, listing[..|listing| - 1])
      case None => None
      case Some(before) =>
        var entry := listing[|listing| - 1];
        if entry.id in before && before[entry.id].workspace != w then None
        else Some(before[entry.id := Repo(w, id, entry.owner, entry.name, Branch(entry), true)])
  }

  function Ids(listing: seq<Listed>): set<RepoId> {
    set k | 0 <= k < |listing| :: listing[k].id
  }

  /** Disconnects what the listing no longer names. */
  function Pruned(repos: map<RepoId, Repo>, w: Workspace, id: Id, named: set<RepoId>): map<RepoId, Repo> {
    map r <- repos ::
      if repos[r].workspace == w && repos[r].installation == id && r !in named
      then repos[r].(connected := false) else repos[r]
  }

  function Snapshot(s: State, k: Sync, listing: seq<Listed>): Outcome {
    if k.workspace.None? || k.workspace.value !in s.workspaces then Refused(NotFound)
    else if !Current(s, k) then Refused(StaleSync)
    else
      match Upserted(s.repos, k.workspace.value, k.installation, listing)
      case None => Refused(RepositoryConflict)
      case Some(repos) =>
        Committed(s.(repos := Pruned(repos, k.workspace.value, k.installation, Ids(listing)),
                     installations := s.installations[
                       k.installation := s.installations[k.installation].(synced := true, error := None)]))
  }

  function SafeError(code: string): string {
    if code == "repository_conflict" then code else "sync_failed"
  }

  function SyncFailed(s: State, k: Sync, code: string): State {
    if k.workspace.Some? && k.installation in s.installations && s.installations[k.installation].owner == k.workspace
       && s.installations[k.installation].generation == k.generation then
      s.(installations := s.installations[
           k.installation := s.installations[k.installation].(error := Some(SafeError(code)))])
    else s
  }

  // ----- Lifecycle events -----

  datatype Action = DeletedAction | SuspendAction | UnsuspendAction | OtherAction

  function Disconnected(repos: map<RepoId, Repo>, id: Id): map<RepoId, Repo> {
    map r <- repos :: if repos[r].installation == id then repos[r].(connected := false) else repos[r]
  }

  /** The installation as the provider reports it; the owner was read before the transaction began. */
  ghost function Lifecycle(s: State, id: Id, login: string, action: Action, seen: Option<Workspace>): Outcome {
    var installations := Noted(s.installations, id, login);
    var row := installations[id];
    var t := s.(installations := installations);
    if seen.Some? && seen.value !in s.workspaces then Refused(NotFound)
    else if row.owner != seen then Refused(StaleSync)
    else if row.deleted then Committed(t)
    else
      match action
      case DeletedAction =>
        Committed(t.(repos := Disconnected(s.repos, id),
                     installations := installations[id := row.(deleted := true, owner := None, verified := false,
                                                               generation := row.generation + 1, error := None)]))
      case SuspendAction => Committed(t.(installations := installations[id := Fenced(row)]))
      case UnsuspendAction => Committed(t.(installations := installations[id := Fenced(row)]))
      case OtherAction =>
        if seen.None? || !row.verified || row.suspended then Committed(t)
        else Requested(t, seen.value, Some(id), false)
  }

  function Noted(installations: map<Id, Installation>, id: Id, login: string): map<Id, Installation> {
    if id in installations then installations
    else installations[id := Installation(login, None, false, false, None, false, false, 0)]
  }

  function Fenced(row: Installation): Installation {
    row.(suspended := true, generation := row.generation + 1)
  }

  /** The provider's answer about suspension, if the captured generation and binding still stand. */
  ghost function Reported(s: State, k: Sync, suspended: bool): Outcome {
    if k.workspace.Some? && k.workspace.value !in s.workspaces then Refused(NotFound)
    else if k.installation !in s.installations then Refused(StaleSync)
    else
      var row := s.installations[k.installation];
      if row.generation != k.generation || row.owner != k.workspace || row.deleted then Refused(StaleSync)
      else
        var t := s.(installations := s.installations[
                      k.installation := row.(suspended := suspended && row.suspended, error := None)]);
        if !suspended && row.owner.Some? && row.verified then Requested(t, row.owner.value, Some(k.installation), false)
        else Committed(t)
  }

  // ----- Evidence -----

  /** The generation an evidence write captures for a repository that is active now. */
  function ActiveRepo(s: State, r: RepoId, id: Id): Option<RepoRef> {
    if r in s.repos && id > 0 && s.repos[r].installation == id && id in s.installations && s.repos[r].connected
       && s.installations[id].owner == Some(s.repos[r].workspace)
       && s.installations[id].verified && !s.installations[id].suspended && !s.installations[id].deleted
    then Some(RepoRef(r, s.repos[r].workspace, id, s.installations[id].generation))
    else None
  }

  predicate Writable(s: State, ref: RepoRef) {
    && Current(s, Sync(ref.installation, Some(ref.workspace), ref.generation))
    && ref.repo in s.repos && s.repos[ref.repo].workspace == ref.workspace
    && s.repos[ref.repo].installation == ref.installation && s.repos[ref.repo].connected
  }

  function Written(s: State, ref: RepoRef, note: string): State {
    if ref.workspace in s.workspaces && Writable(s, ref) then s.(evidence := s.evidence + [(ref, note)]) else s
  }

  // ----- Organisations -----

  /** Deleting an organisation takes its repositories with it and leaves its installation unowned. */
  function Abandoned(s: State, w: Workspace): State {
    s.(workspaces := s.workspaces - {w},
       installations := map i <- s.installations ::
         if s.installations[i].owner == Some(w) then s.installations[i].(owner := None) else s.installations[i],
       repos := map r <- s.repos | s.repos[r].workspace != w :: s.repos[r],
       handshake := H.Dropped(s.handshake, set h | h in s.handshake.setups && s.handshake.setups[h].workspace == w,
                                           set h | h in s.handshake.grants && s.handshake.grants[h].link == Some(w)))
  }

  // ----- What every transaction keeps -----

  predicate OwnersExist(s: State) {
    forall i <- s.installations :: s.installations[i].owner.Some? ==> s.installations[i].owner.value in s.workspaces
  }

  ghost predicate OneEach(installations: map<Id, Installation>) {
    forall w, i, j :: Owns(installations, w, i) && Owns(installations, w, j) ==> i == j
  }

  /** A connected repository points at a live installation bound to its own organisation. */
  predicate RepoSound(s: State, r: Repo) {
    && r.workspace in s.workspaces && r.installation in s.installations
    && (r.connected ==>
          !s.installations[r.installation].deleted && s.installations[r.installation].owner == Some(r.workspace))
  }

  predicate ReposSound(s: State) {
    forall r <- s.repos :: RepoSound(s, s.repos[r])
  }

  /** No generation of an installation is ever queued twice, and none runs ahead of the installation's own. */
  predicate JobsSound(installations: map<Id, Installation>, jobs: seq<Job>) {
    && (forall k | 0 <= k < |jobs| ::
          jobs[k].sync.installation in installations
          && jobs[k].sync.generation <= installations[jobs[k].sync.installation].generation)
    && (forall j, k | 0 <= j < k < |jobs| ::
          jobs[j].sync.installation == jobs[k].sync.installation ==> jobs[j].sync.generation < jobs[k].sync.generation)
  }

  predicate HandshakeSound(s: State) {
    && H.Sound(s.handshake)
    && (forall h <- s.handshake.setups :: s.handshake.setups[h].workspace in s.workspaces)
    && (forall h <- s.handshake.grants ::
        s.handshake.grants[h].link.Some? ==> s.handshake.grants[h].link.value in s.workspaces)
  }

  ghost predicate Sound(s: State) {
    && OwnersExist(s) && OneEach(s.installations) && ReposSound(s)
    && JobsSound(s.installations, s.jobs) && HandshakeSound(s)
  }

  /** What no transaction undoes, for one installation. */
  predicate RowFollows(a: Installation, b: Installation) {
    && a.generation <= b.generation
    && (a.deleted ==> b.deleted)
    && (a.generation == b.generation ==>
          && (b.owner == a.owner || b.owner.None?) && b.verified == a.verified && b.deleted == a.deleted
          && (b.suspended ==> a.suspended))
  }

  predicate InstallationsFollow(a: map<Id, Installation>, b: map<Id, Installation>) {
    forall i <- a :: i in b && RowFollows(a[i], b[i])
  }

  /** Installations are never forgotten and repositories never change hands. */
  predicate Follows(s: State, t: State) {
    && InstallationsFollow(s.installations, t.installations)
    && (forall r <- s.repos :: r in t.repos ==> t.repos[r].workspace == s.repos[r].workspace)
    && s.jobs <= t.jobs
  }

  // ----- The transactions keep it -----

  /** Under one owner each, a request concerns exactly the installation that the organisation owns. */
  lemma RequestedOf(s: State, w: Workspace, id: Id, expected: Option<Id>, retry: bool)
    requires OneEach(s.installations) && Owns(s.installations, w, id)
    ensures var row := s.installations[id];
            Requested(s, w, expected, retry) ==
            if expected.Some? && expected.value != id then Refused(StaleSync)
            else if !row.verified then Refused(VerificationRequired)
            else if row.deleted || (row.suspended && !retry) then Refused(StaleSync)
            else Committed(Requeued(s, id, w))
  {
  }

  lemma RequeuedSound(s: State, id: Id, w: Workspace)
    requires Sound(s) && Owns(s.installations, w, id)
    ensures Sound(Requeued(s, id, w)) && Follows(s, Requeued(s, id, w))
  {
    var t := Requeued(s, id, w);
    assert forall v, i :: Owns(t.installations, v, i) == Owns(s.installations, v, i);
    assert forall r <- s.repos :: RepoSound(s, s.repos[r]);
    assert forall r <- t.repos :: RepoSound(t, t.repos[r]);
  }

  lemma RequestedSound(s: State, w: Workspace, expected: Option<Id>, retry: bool)
    requires Sound(s) && Requested(s, w, expected, retry).Committed?
    ensures Sound(Requested(s, w, expected, retry).state) && Follows(s, Requested(s, w, expected, retry).state)
  {
    var id :| Owns(s.installations, w, id);
    RequestedOf(s, w, id, expected, retry);
    RequeuedSound(s, id, w);
  }

  /** After a binding the organisation owns the bound installation and no other. */
  lemma BoundOwners(s: State, w: Workspace, v: Verified)
    requires OneEach(s.installations) && !SlotTaken(s.installations, w, v.id)
    requires v.id in s.installations ==> s.installations[v.id].owner.None? || s.installations[v.id].owner == Some(w)
    ensures var after := Released(s.installations, w, v.id)[v.id := BoundRow(s.installations, w, v)];
            OneEach(after)
  {
    var after := Released(s.installations, w, v.id)[v.id := BoundRow(s.installations, w, v)];
    forall u, i, j | Owns(after, u, i) && Owns(after, u, j) ensures i == j {
      if i != v.id && j != v.id {
        assert Owns(s.installations, u, i) && Owns(s.installations, u, j);
      }
    }
  }

  /** Binding keeps every repository's installation bound to its own organisation. */
  lemma BoundRepos(s: State, t: State, w: Workspace, v: Verified)
    requires ReposSound(s) && !SlotTaken(s.installations, w, v.id)
    requires v.id in s.installations ==> !s.installations[v.id].deleted
    requires v.id in s.installations ==> s.installations[v.id].owner.None? || s.installations[v.id].owner == Some(w)
    requires t.installations == Released(s.installations, w, v.id)[v.id := BoundRow(s.installations, w, v)]
    requires t.repos == s.repos && t.workspaces == s.workspaces
    ensures ReposSound(t)
  {
    forall r <- t.repos ensures RepoSound(t, t.repos[r]) {
      assert RepoSound(s, s.repos[r]);
    }
  }

  lemma BoundFollow(s: State, w: Workspace, v: Verified)
    requires v.id in s.installations ==> !s.installations[v.id].deleted
    ensures InstallationsFollow(s.installations,
                                Released(s.installations, w, v.id)[v.id := BoundRow(s.installations, w, v)])
  {
  }

  /** Queueing a generation above every earlier one of the installation keeps the queue sound. */
  lemma QueuedSound(a: map<Id, Installation>, b: map<Id, Installation>, jobs: seq<Job>, job: Job)
    requires JobsSound(a, jobs) && InstallationsFollow(a, b)
    requires job.sync.installation in b && job.sync.generation == b[job.sync.installation].generation
    requires job.sync.installation in a ==> a[job.sync.installation].generation < job.sync.generation
    ensures JobsSound(b, jobs + [job])
  {
  }

  lemma BoundSound(s: State, a: H.Evidence, v: Verified, admin: bool, live: bool, now: H.Time, later: H.Time)
    requires Sound(s) && Bound(s, a, v, admin, live, now, later).Committed?
    ensures Sound(Bound(s, a, v, admin, live, now, later).state)
    ensures Follows(s, Bound(s, a, v, admin, live, now, later).state)
  {
    hide H.Sound, H.Finished, JobsSound, OneEach, ReposSound, SlotTaken, InstallationsFollow;
    var t := Bound(s, a, v, admin, live, now, later).state;
    var w := a.workspace;
    BoundOwners(s, w, v);
    BoundRepos(s, t, w, v);
    BoundFollow(s, w, v);
    BoundQueue(s, w, v);
    FinishedSound(s, t, a, later);
    var row := BoundRow(s.installations, w, v);
    QueuedSound(s.installations, t.installations, s.jobs,
                Job(if row.suspended then SyncState else SyncRepos, Sync(v.id, Some(w), row.generation)));
    assert OwnersExist(t);
  }

  lemma BoundQueue(s: State, w: Workspace, v: Verified)
    requires JobsSound(s.installations, s.jobs)
    ensures v.id in s.installations ==> s.installations[v.id].generation < BoundRow(s.installations, w, v).generation
  {
  }

  lemma FinishedSound(s: State, t: State, a: H.Evidence, at: H.Time)
    requires HandshakeSound(s) && H.Held(s.handshake, a, true, true, at)
    requires t.handshake == H.Finished(s.handshake, a) && t.workspaces == s.workspaces
    ensures HandshakeSound(t) && a.workspace in s.workspaces
  {
    H.FinishSound(s.handshake, a, at);
  }

  /** What the listing says last about a repository. */
  function LastEntry(listing: seq<Listed>, r: RepoId): Listed
    requires r in Ids(listing)
  {
    if listing[|listing| - 1].id == r then listing[|listing| - 1] else LastEntry(listing[..|listing| - 1], r)
  }

  predicate Foreign(repos: map<RepoId, Repo>, w: Workspace, listing: seq<Listed>) {
    exists k | 0 <= k < |listing| :: listing[k].id in repos && repos[listing[k].id].workspace != w
  }

  predicate Merged(before: map<RepoId, Repo>, after: map<RepoId, Repo>, w: Workspace, id: Id, listing: seq<Listed>) {
    && after.Keys == before.Keys + Ids(listing)
    && (forall r <- before :: r !in Ids(listing) ==> after[r] == before[r])
    && (forall r <- Ids(listing) ::
          var e := LastEntry(listing, r); after[r] == Repo(w, id, e.owner, e.name, Branch(e), true))
  }

  lemma ForeignStep(repos: map<RepoId, Repo>, w: Workspace, listing: seq<Listed>)
    requires listing != []
    ensures var prior, entry := listing[..|listing| - 1], listing[|listing| - 1];
            Foreign(repos, w, listing) <==>
              Foreign(repos, w, prior) || (entry.id in repos && repos[entry.id].workspace != w)
  {
    var prior := listing[..|listing| - 1];
    if Foreign(repos, w, prior) {
      var k :| 0 <= k < |prior| && prior[k].id in repos && repos[prior[k].id].workspace != w;
      assert listing[k] == prior[k];
    }
  }

  lemma MergedStep(before: map<RepoId, Repo>, mid: map<RepoId, Repo>, w: Workspace, id: Id, listing: seq<Listed>)
    requires listing != [] && Merged(before, mid, w, id, listing[..|listing| - 1])
    ensures var e := listing[|listing| - 1];
            Merged(before, mid[e.id := Repo(w, id, e.owner, e.name, Branch(e), true)], w, id, listing)
  {
    hide Branch;
    var prior, entry := listing[..|listing| - 1], listing[|listing| - 1];
    assert Ids(listing) == Ids(prior) + {entry.id};
  }

  /** Writing a listing fails exactly on another organisation's row; otherwise each row has its last entry. */
  lemma {:induction false} UpsertedMeaning(repos: map<RepoId, Repo>, w: Workspace, id: Id, listing: seq<Listed>)
    ensures Upserted(repos, w, id, listing).None? <==> Foreign(repos, w, listing)
    ensures Upserted(repos, w, id, listing).Some? ==>
              Merged(repos, Upserted(repos, w, id, listing).value, w, id, listing)
  {
    if listing != [] {
      hide Foreign, Merged;
      var prior, entry := listing[..|listing| - 1], listing[|listing| - 1];
      UpsertedMeaning(repos, w, id, prior);
      ForeignStep(repos, w, listing);
      var mid := Upserted(repos, w, id, prior);
      if mid.Some? {
        MergedStep(repos, mid.value, w, id, listing);
        MergedOwner(repos, mid.value, w, id, prior, entry.id);
      }
    }
  }

  lemma MergedOwner(before: map<RepoId, Repo>, after: map<RepoId, Repo>, w: Workspace, id: Id, listing: seq<Listed>,
                    r: RepoId)
    requires Merged(before, after, w, id, listing) && !Foreign(before, w, listing)
    ensures r in after && after[r].workspace != w <==> r in before && before[r].workspace != w
  {
  }

  /** What a listing does to the repositories, given that it meets no foreign row. */
  predicate Listing(s: State, t: State, k: Sync, listing: seq<Listed>)
    requires k.workspace.Some?
  {
    && t.repos.Keys == s.repos.Keys + Ids(listing)
    && (forall r <- Ids(listing) ::
          var e := LastEntry(listing, r);
          t.repos[r] == Repo(k.workspace.value, k.installation, e.owner, e.name, Branch(e), true))
    && (forall r <- s.repos :: r !in Ids(listing) ==>
          t.repos[r] == if s.repos[r].workspace == k.workspace.value && s.repos[r].installation == k.installation
                        then s.repos[r].(connected := false) else s.repos[r])
    && t == s.(repos := t.repos, installations := t.installations)
  }

  lemma SnapshotListing(s: State, k: Sync, listing: seq<Listed>)
    requires Snapshot(s, k, listing).Committed?
    ensures Listing(s, Snapshot(s, k, listing).state, k, listing)
  {
    UpsertedMeaning(s.repos, k.workspace.value, k.installation, listing);
  }

  /** A listing commits exactly for a current capture that meets no row of another organisation. */
  lemma SnapshotCommits(s: State, k: Sync, listing: seq<Listed>)
    requires Sound(s)
    ensures Snapshot(s, k, listing).Committed? <==> Current(s, k) && !Foreign(s.repos, k.workspace.value, listing)
    ensures Current(s, k) && Foreign(s.repos, k.workspace.value, listing) ==>
              Snapshot(s, k, listing) == Refused(RepositoryConflict)
  {
    hide H.Sound, JobsSound, OneEach, ReposSound, Upserted, Foreign;
    if k.workspace.Some? {
      UpsertedMeaning(s.repos, k.workspace.value, k.installation, listing);
    }
  }

  lemma SnapshotSound(s: State, k: Sync, listing: seq<Listed>)
    requires Sound(s) && Snapshot(s, k, listing).Committed?
    ensures Sound(Snapshot(s, k, listing).state) && Follows(s, Snapshot(s, k, listing).state)
  {
    hide H.Sound, Upserted, Pruned, Foreign, JobsSound;
    var t := Snapshot(s, k, listing).state;
    SnapshotListing(s, k, listing);
    SnapshotCommits(s, k, listing);
    assert forall w, i :: Owns(t.installations, w, i) == Owns(s.installations, w, i);
    SnapshotRepos(s, t, k, listing);
    GenerationsKept(s.installations, t.installations, s.jobs);
  }

  lemma SnapshotRepos(s: State, t: State, k: Sync, listing: seq<Listed>)
    requires ReposSound(s) && Current(s, k) && Listing(s, t, k, listing) && k.workspace.value in s.workspaces
    requires !Foreign(s.repos, k.workspace.value, listing)
    requires t.installations ==
             s.installations[k.installation := s.installations[k.installation].(synced := true, error := None)]
    ensures ReposSound(t)
    ensures forall r <- s.repos :: t.repos[r].workspace == s.repos[r].workspace
  {
    forall r <- t.repos ensures RepoSound(t, t.repos[r]) {
      if r in s.repos {
        assert RepoSound(s, s.repos[r]);
      }
    }
  }

  lemma GenerationsKept(a: map<Id, Installation>, b: map<Id, Installation>, jobs: seq<Job>)
    requires JobsSound(a, jobs) && InstallationsFollow(a, b)
    ensures JobsSound(b, jobs)
  {
  }

  /** Rewriting one row without a new owner keeps the state sound. */
  lemma RowSound(s: State, id: Id, row: Installation)
    requires Sound(s) && id in s.installations && RowFollows(s.installations[id], row)
    requires row.owner == s.installations[id].owner && row.deleted == s.installations[id].deleted
    ensures var t := s.(installations := s.installations[id := row]);
            Sound(t) && Follows(s, t)
  {
    hide H.Sound, JobsSound;
    var t := s.(installations := s.installations[id := row]);
    assert forall w, i :: Owns(t.installations, w, i) == Owns(s.installations, w, i);
    GenerationsKept(s.installations, t.installations, s.jobs);
    forall r <- t.repos ensures RepoSound(t, t.repos[r]) {
      assert RepoSound(s, s.repos[r]);
    }
  }

  /** Deleting an installation disconnects all it had. */
  lemma DeletedSound(s: State, id: Id)
    requires Sound(s) && id in s.installations
    ensures var row := s.installations[id];
            var t := s.(repos := Disconnected(s.repos, id),
                        installations := s.installations[id := row.(deleted := true, owner := None, verified := false,
                                                                    generation := row.generation + 1, error := None)]);
            Sound(t) && Follows(s, t)
  {
    hide H.Sound, JobsSound;
    var row := s.installations[id];
    var t := s.(repos := Disconnected(s.repos, id),
                installations := s.installations[id := row.(deleted := true, owner := None, verified := false,
                                                            generation := row.generation + 1, error := None)]);
    assert forall w, i :: Owns(t.installations, w, i) == (i != id && Owns(s.installations, w, i));
    GenerationsKept(s.installations, t.installations, s.jobs);
    forall r <- t.repos ensures RepoSound(t, t.repos[r]) {
      assert RepoSound(s, s.repos[r]);
    }
  }

  lemma NotedSound(s: State, id: Id, login: string)
    requires Sound(s)
    ensures var t := s.(installations := Noted(s.installations, id, login));
            Sound(t) && Follows(s, t)
  {
    hide H.Sound, JobsSound;
    var t := s.(installations := Noted(s.installations, id, login));
    assert forall w, i :: Owns(t.installations, w, i) == Owns(s.installations, w, i);
    GenerationsKept(s.installations, t.installations, s.jobs);
    forall r <- t.repos ensures RepoSound(t, t.repos[r]) {
      assert RepoSound(s, s.repos[r]);
    }
  }

  lemma FollowsTrans(s: State, t: State, u: State)
    requires Follows(s, t) && Follows(t, u) && t.repos.Keys >= s.repos.Keys
    ensures Follows(s, u)
  {
  }

  lemma LifecycleSound(s: State, id: Id, login: string, action: Action, seen: Option<Workspace>)
    requires Sound(s) && Lifecycle(s, id, login, action, seen).Committed?
    ensures Sound(Lifecycle(s, id, login, action, seen).state)
            && Follows(s, Lifecycle(s, id, login, action, seen).state)
  {
    hide Sound, Follows;
    NotedSound(s, id, login);
    var t := s.(installations := Noted(s.installations, id, login));
    var u := Lifecycle(s, id, login, action, seen).state;
    var row := t.installations[id];
    if u != t {
      match action {
        case DeletedAction => DeletedSound(t, id);
        case SuspendAction => RowSound(t, id, Fenced(row));
        case UnsuspendAction => RowSound(t, id, Fenced(row));
        case OtherAction => RequestedSound(t, seen.value, Some(id), false);
      }
      FollowsTrans(s, t, u);
    }
  }

  lemma ReportedSound(s: State, k: Sync, suspended: bool)
    requires Sound(s) && Reported(s, k, suspended).Committed?
    ensures Sound(Reported(s, k, suspended).state) && Follows(s, Reported(s, k, suspended).state)
  {
    hide Sound, Follows, Requested;
    var row := s.installations[k.installation];
    var cleared := row.(suspended := suspended && row.suspended, error := None);
    var t := s.(installations := s.installations[k.installation := cleared]);
    RowSound(s, k.installation, cleared);
    if !suspended && row.owner.Some? && row.verified {
      RequestedSound(t, row.owner.value, Some(k.installation), false);
      FollowsTrans(s, t, Reported(s, k, suspended).state);
    }
  }

  lemma DroppedSound(t: H.Tables, setups: set<H.Hash>, grants: set<H.Hash>)
    requires H.Sound(t)
    ensures H.Sound(H.Dropped(t, setups, grants))
  {
    H.SoundStep(t, t.setups.Keys + t.grants.Keys, H.Drop(setups, grants));
  }

  lemma AbandonedHandshake(s: State, w: Workspace)
    requires HandshakeSound(s)
    ensures var t := Abandoned(s, w);
            && (forall h <- t.handshake.setups :: t.handshake.setups[h].workspace in t.workspaces)
            && (forall h <- t.handshake.grants ::
                t.handshake.grants[h].link.Some? ==> t.handshake.grants[h].link.value in t.workspaces)
  {
    hide H.Sound;
  }

  lemma AbandonedRows(s: State, w: Workspace)
    requires Sound(s)
    ensures var t := Abandoned(s, w);
            OneEach(t.installations) && JobsSound(t.installations, t.jobs)
            && InstallationsFollow(s.installations, t.installations)
  {
    hide HandshakeSound, JobsSound, H.Dropped, ReposSound;
    var t := Abandoned(s, w);
    assert forall v, i :: Owns(t.installations, v, i) == (v != w && Owns(s.installations, v, i));
    GenerationsKept(s.installations, t.installations, s.jobs);
  }

  lemma AbandonedSound(s: State, w: Workspace)
    requires Sound(s)
    ensures Sound(Abandoned(s, w)) && Follows(s, Abandoned(s, w))
  {
    hide H.Sound, JobsSound, H.Dropped, OneEach, InstallationsFollow;
    var t := Abandoned(s, w);
    AbandonedHandshake(s, w);
    DroppedSound(s.handshake, set h | h in s.handshake.setups && s.handshake.setups[h].workspace == w,
                              set h | h in s.handshake.grants && s.handshake.grants[h].link == Some(w));
    AbandonedRows(s, w);
    forall r <- t.repos ensures RepoSound(t, t.repos[r]) {
      assert RepoSound(s, s.repos[r]);
    }
  }

  // ----- Runs -----

  /** One transaction, attempted in any state. */
  datatype Op =
    | Found(workspace: Workspace)
    | Abandon(workspace: Workspace)
    | Authorize(event: H.Event)
    | Bind(a: H.Evidence, v: Verified, admin: bool, live: bool, now: H.Time, later: H.Time)
    | Retry(workspace: Workspace, admin: bool)
    | Nudge(workspace: Workspace, id: Id)
    | Apply(sync: Sync, listing: seq<Listed>)
    | Fail(sync: Sync, code: string)
    | Event(id: Id, login: string, action: Action, seen: Option<Workspace>)
    | Report(sync: Sync, suspended: bool)
    | Write(ref: RepoRef, note: string)

  /** A step of the handshake other than the completion that only a binding performs. */
  predicate Allowed(s: State, e: H.Event) {
    && H.Enabled(s.handshake, s.handshake.setups.Keys + s.handshake.grants.Keys, e) && !e.Finish?
    && (e.Create? ==> e.workspace in s.workspaces)
    && (e.StartLink? && e.link.Some? ==> e.link.value in s.workspaces)
  }

  ghost function Result(s: State, op: Op): Outcome {
    match op
    case Found(w) => Committed(s.(workspaces := s.workspaces + {w}))
    case Abandon(w) => Committed(Abandoned(s, w))
    case Authorize(e) =>
      if Allowed(s, e)
      then Committed(s.(handshake := H.Next(s.handshake, s.handshake.setups.Keys + s.handshake.grants.Keys, e)))
      else Refused(NotFound)
    case Bind(a, v, admin, live, now, later) => Bound(s, a, v, admin, live, now, later)
    case Retry(w, admin) => Retried(s, w, admin)
    case Nudge(w, id) => Nudged(s, w, id)
    case Apply(k, listing) => Snapshot(s, k, listing)
    case Fail(k, code) => Committed(SyncFailed(s, k, code))
    case Event(id, login, action, seen) => Lifecycle(s, id, login, action, seen)
    case Report(k, suspended) => Reported(s, k, suspended)
    case Write(ref, note) => Committed(Written(s, ref, note))
  }

  /** A refused transaction leaves everything as it was. */
  ghost function Next(s: State, op: Op): State {
    match Result(s, op)
    case Committed(t) => t
    case Refused(_) => s
  }

  ghost function Run(s: State, ops: seq<Op>): State {
    if ops == [] then s else Next(Run(s, ops[..|ops| - 1]), ops[|ops| - 1])
  }

  lemma AuthorizedSound(s: State, e: H.Event)
    requires Sound(s) && Allowed(s, e)
    ensures var t := s.(handshake := H.Next(s.handshake, s.handshake.setups.Keys + s.handshake.grants.Keys, e));
            Sound(t) && Follows(s, t)
  {
    hide H.Sound, JobsSound, OneEach;
    var issued := s.handshake.setups.Keys + s.handshake.grants.Keys;
    var t := s.(handshake := H.Next(s.handshake, issued, e));
    H.SoundStep(s.handshake, issued, e);
    forall r <- t.repos ensures RepoSound(t, t.repos[r]) {
      assert RepoSound(s, s.repos[r]);
    }
    WorkspacesKept(s, e);
  }

  lemma WorkspacesKept(s: State, e: H.Event)
    requires HandshakeSound(s) && Allowed(s, e)
    ensures var t := H.Next(s.handshake, s.handshake.setups.Keys + s.handshake.grants.Keys, e);
            && (forall h <- t.setups :: t.setups[h].workspace in s.workspaces)
            && (forall h <- t.grants :: t.grants[h].link.Some? ==> t.grants[h].link.value in s.workspaces)
  {
    hide H.Sound;
  }

  lemma FoundSound(s: State, w: Workspace)
    requires Sound(s)
    ensures var t := s.(workspaces := s.workspaces + {w});
            Sound(t) && Follows(s, t)
  {
    hide H.Sound, JobsSound, OneEach;
    var t := s.(workspaces := s.workspaces + {w});
    forall r <- t.repos ensures RepoSound(t, t.repos[r]) {
      assert RepoSound(s, s.repos[r]);
    }
  }

  lemma WrittenSound(s: State, ref: RepoRef, note: string)
    requires Sound(s)
    ensures Sound(Written(s, ref, note)) && Follows(s, Written(s, ref, note))
  {
    hide H.Sound, JobsSound, OneEach, Writable;
    var t := Written(s, ref, note);
    forall r <- t.repos ensures RepoSound(t, t.repos[r]) {
      assert RepoSound(s, s.repos[r]);
    }
  }

  lemma SyncFailedSound(s: State, k: Sync, code: string)
    requires Sound(s)
    ensures Sound(SyncFailed(s, k, code)) && Follows(s, SyncFailed(s, k, code))
  {
    if SyncFailed(s, k, code) != s {
      hide Sound, Follows;
      RowSound(s, k.installation, s.installations[k.installation].(error := Some(SafeError(code))));
    }
  }

  /** Every transaction keeps the state sound, forgets no installation and moves no repository. */
  lemma StepSound(s: State, op: Op)
    requires Sound(s)
    ensures Sound(Next(s, op)) && Follows(s, Next(s, op))
  {
    hide Sound, Follows, Bound, Requested, Snapshot, SyncFailed, Lifecycle, Reported, Written, Abandoned, Allowed,
      H.Next;
    match Result(s, op)
    case Refused(_) => FollowsSelf(s);
    case Committed(_) =>
      match op
      case Found(w) => FoundSound(s, w);
      case Abandon(w) => AbandonedSound(s, w);
      case Authorize(e) => AuthorizedSound(s, e);
      case Bind(a, v, admin, live, now, later) => BoundSound(s, a, v, admin, live, now, later);
      case Retry(w, _) => RequestedSound(s, w, None, true);
      case Nudge(w, id) => RequestedSound(s, w, Some(id), false);
      case Apply(k, listing) => SnapshotSound(s, k, listing);
      case Fail(k, code) => SyncFailedSound(s, k, code);
      case Event(id, login, action, seen) => LifecycleSound(s, id, login, action, seen);
      case Report(k, suspended) => ReportedSound(s, k, suspended);
      case Write(ref, note) => WrittenSound(s, ref, note);
  }

  lemma FollowsSelf(s: State)
    ensures Follows(s, s)
  {
  }

  lemma EmptySound()
    ensures Sound(EMPTY)
  {
  }

  lemma {:induction false} RunSound(s: State, ops: seq<Op>)
    requires Sound(s)
    ensures Sound(Run(s, ops)) && InstallationsFollow(s.installations, Run(s, ops).installations)
    ensures s.jobs <= Run(s, ops).jobs
  {
    hide Sound, Next;
    if ops != [] {
      RunSound(s, ops[..|ops| - 1]);
      StepSound(Run(s, ops[..|ops| - 1]), ops[|ops| - 1]);
    }
  }

  // ----- Fencing -----

  /** The transaction commits a binding, a retry, a suspension, its end or a deletion of the installation. */
  ghost predicate Fences(s: State, op: Op, id: Id)
    requires id in s.installations
  {
    var row := s.installations[id];
    && Result(s, op).Committed?
    && match op
       case Bind(a, v, _, _, _, _) => v.id == id || row.owner == Some(a.workspace)
       case Retry(w, _) => row.owner == Some(w)
       case Nudge(_, i) => i == id
       case Event(i, _, action, _) =>
         i == id && !row.deleted && (action == OtherAction ==> row.owner.Some? && row.verified && !row.suspended)
       case Report(k, suspended) => k.installation == id && !suspended && row.owner.Some? && row.verified
       case _ => false
  }

  lemma RequestedBumps(s: State, w: Workspace, expected: Option<Id>, retry: bool, id: Id)
    requires OneEach(s.installations) && id in s.installations && Requested(s, w, expected, retry).Committed?
    ensures var t := Requested(s, w, expected, retry).state;
            id in t.installations
            && t.installations[id].generation ==
               s.installations[id].generation + (if s.installations[id].owner == Some(w) then 1 else 0)
    ensures expected.Some? ==> (id == expected.value <==> s.installations[id].owner == Some(w))
  {
    var i :| Owns(s.installations, w, i);
    RequestedOf(s, w, i, expected, retry);
    assert s.installations[id].owner == Some(w) <==> Owns(s.installations, w, id);
  }

  lemma LifecycleBumps(s: State, id: Id, login: string, action: Action, seen: Option<Workspace>, i: Id)
    requires OneEach(s.installations) && i in s.installations && Lifecycle(s, id, login, action, seen).Committed?
    ensures var t := Lifecycle(s, id, login, action, seen).state;
            && i in t.installations
            && t.installations[i].generation ==
               s.installations[i].generation + (if Fences(s, Event(id, login, action, seen), i) then 1 else 0)
  {
    hide OneEach, Requested;
    var t := s.(installations := Noted(s.installations, id, login));
    var row := t.installations[id];
    if action == OtherAction && !row.deleted && seen.Some? && row.verified && !row.suspended {
      assert OneEach(t.installations) by { NotedOneEach(s.installations, id, login); }
      RequestedBumps(t, seen.value, Some(id), false, i);
    }
  }

  lemma NotedOneEach(installations: map<Id, Installation>, id: Id, login: string)
    requires OneEach(installations)
    ensures OneEach(Noted(installations, id, login))
  {
    var after := Noted(installations, id, login);
    assert forall w, i :: Owns(after, w, i) ==> Owns(installations, w, i);
  }

  lemma ReportedBumps(s: State, k: Sync, suspended: bool, i: Id)
    requires OneEach(s.installations) && i in s.installations && Reported(s, k, suspended).Committed?
    ensures var t := Reported(s, k, suspended).state;
            && i in t.installations
            && t.installations[i].generation ==
               s.installations[i].generation + (if Fences(s, Report(k, suspended), i) then 1 else 0)
  {
    hide OneEach, Requested;
    var row := s.installations[k.installation];
    var t := s.(installations :=
                s.installations[k.installation := row.(suspended := suspended && row.suspended, error := None)]);
    if !suspended && row.owner.Some? && row.verified {
      assert OneEach(t.installations) by { SameOwnersOneEach(s.installations, t.installations); }
      RequestedBumps(t, row.owner.value, Some(k.installation), false, i);
    }
  }

  lemma SameOwnersOneEach(a: map<Id, Installation>, b: map<Id, Installation>)
    requires OneEach(a) && a.Keys == b.Keys && forall i <- a :: a[i].owner == b[i].owner
    ensures OneEach(b)
  {
    assert forall w, i :: Owns(b, w, i) ==> Owns(a, w, i);
  }

  /** The generation of an installation moves exactly when a fencing transaction commits, and then by one. */
  lemma FenceBumps(s: State, op: Op, id: Id)
    requires Sound(s) && id in s.installations
    ensures var t := Next(s, op);
            id in t.installations
            && t.installations[id].generation == s.installations[id].generation + if Fences(s, op, id) then 1 else 0
  {
    hide OneEach, JobsSound, H.Sound, HandshakeSound, ReposSound, Requested, Lifecycle, Reported, H.Held, Upserted,
      Genuine, H.Next;
    match op
    case Retry(w, admin) =>
      if Result(s, op).Committed? { RequestedBumps(s, w, None, true, id); }
    case Nudge(w, i) =>
      if Result(s, op).Committed? { RequestedBumps(s, w, Some(i), false, id); }
    case Event(i, login, action, seen) =>
      if Result(s, op).Committed? { LifecycleBumps(s, i, login, action, seen, id); }
    case Report(k, suspended) =>
      if Result(s, op).Committed? { ReportedBumps(s, k, suspended, id); }
    case _ =>
  }

  /** A fencing transaction anywhere in the run shows in the final generation. */
  lemma {:induction false} FencesShow(s: State, ops: seq<Op>, id: Id)
    requires Sound(s) && id in s.installations
    ensures Sound(Run(s, ops)) && id in Run(s, ops).installations
    ensures Run(s, ops).installations[id].generation >= s.installations[id].generation
    ensures Run(s, ops).installations[id].generation == s.installations[id].generation ==> Unfenced(s, ops, id)
  {
    hide Sound, Next, Fences;
    if ops != [] {
      hide Unfenced;
      var prior := ops[..|ops| - 1];
      FencesShow(s, prior, id);
      StepSound(Run(s, prior), ops[|ops| - 1]);
      FenceBumps(Run(s, prior), ops[|ops| - 1], id);
      if Run(s, ops).installations[id].generation == s.installations[id].generation {
        UnfencedStep(s, ops, id);
      }
    }
  }

  /** No transaction of the run fences the installation. */
  ghost predicate Unfenced(s: State, ops: seq<Op>, id: Id) {
    forall i | 0 <= i < |ops| ::
      id in Run(s, ops[..i]).installations && !Fences(Run(s, ops[..i]), ops[i], id)
  }

  lemma UnfencedStep(s: State, ops: seq<Op>, id: Id)
    requires ops != [] && Unfenced(s, ops[..|ops| - 1], id)
    requires id in Run(s, ops[..|ops| - 1]).installations && !Fences(Run(s, ops[..|ops| - 1]), ops[|ops| - 1], id)
    ensures Unfenced(s, ops, id)
  {
    hide Run, Fences;
    assert forall i | 0 <= i < |ops| - 1 :: ops[..i] == ops[..|ops| - 1][..i];
  }

  /**
   * Work captured at some generation takes effect only if no binding, retry, suspension, end of
   * suspension or deletion of its installation was committed since.
   */
  lemma CaptureIsFenced(s: State, ops: seq<Op>, k: Sync)
    requires Sound(s) && Current(s, k) && Current(Run(s, ops), k)
    ensures Unfenced(s, ops, k.installation)
  {
    hide Sound, Run, Unfenced;
    FencesShow(s, ops, k.installation);
  }

  /** The same for an evidence write, from the moment its repository was found active. */
  lemma EvidenceIsFenced(s: State, ops: seq<Op>, r: RepoId, id: Id)
    requires Sound(s) && ActiveRepo(s, r, id).Some? && Writable(Run(s, ops), ActiveRepo(s, r, id).value)
    ensures Unfenced(s, ops, id)
  {
    hide Sound, Run, Unfenced;
    FencesShow(s, ops, id);
  }

  /** Deletion is terminal: nothing captured is current again, and no repository of it is ever connected. */
  lemma DeletionIsTerminal(s: State, ops: seq<Op>, id: Id)
    requires Sound(s) && id in s.installations && s.installations[id].deleted
    ensures var t := Run(s, ops);
            && id in t.installations && t.installations[id].deleted
            && (forall k: Sync :: k.installation == id ==> !Current(t, k))
            && (forall r <- t.repos :: t.repos[r].installation == id ==> !t.repos[r].connected)
  {
    hide Run;
    RunSound(s, ops);
    var t := Run(s, ops);
    forall r <- t.repos | t.repos[r].installation == id ensures !t.repos[r].connected {
      assert RepoSound(t, t.repos[r]);
    }
  }

  // ----- Snapshots -----

  /** After a listing commits, the connected repositories of the installation are exactly the listed ones. */
  lemma SnapshotIsListing(s: State, k: Sync, listing: seq<Listed>)
    requires Sound(s) && Snapshot(s, k, listing).Committed?
    ensures var t := Snapshot(s, k, listing).state;
            forall r :: r in t.repos && t.repos[r].installation == k.installation && t.repos[r].connected <==>
              r in Ids(listing)
  {
    hide H.Sound, JobsSound, OneEach, Upserted, Pruned, Foreign;
    var t := Snapshot(s, k, listing).state;
    SnapshotListing(s, k, listing);
    SnapshotCommits(s, k, listing);
    forall r | r in s.repos && r !in Ids(listing) && t.repos[r].connected
      ensures t.repos[r].installation != k.installation
    {
      assert RepoSound(s, s.repos[r]);
    }
  }

  /** Delivering the same listing again changes nothing at all. */
  lemma SnapshotTwice(s: State, k: Sync, listing: seq<Listed>)
    requires Sound(s) && Snapshot(s, k, listing).Committed?
    ensures var t := Snapshot(s, k, listing).state; Snapshot(t, k, listing) == Committed(t)
  {
    hide H.Sound, JobsSound, OneEach, Upserted, Pruned, HandshakeSound, ReposSound;
    var t := Snapshot(s, k, listing).state;
    SnapshotListing(s, k, listing);
    SnapshotCommits(s, k, listing);
    SnapshotSound(s, k, listing);
    assert Current(t, k);
    assert !Foreign(t.repos, k.workspace.value, listing) by {
      forall i | 0 <= i < |listing| ensures t.repos[listing[i].id].workspace == k.workspace.value {
        assert listing[i].id in Ids(listing);
      }
    }
    SnapshotCommits(t, k, listing);
    SnapshotListing(t, k, listing);
    SameListing(s, t, Snapshot(t, k, listing).state, k, listing);
  }

  lemma SameListing(s: State, t: State, u: State, k: Sync, listing: seq<Listed>)
    requires k.workspace.Some? && Listing(s, t, k, listing) && Listing(t, u, k, listing)
    ensures u.repos == t.repos
  {
    assert u.repos.Keys == t.repos.Keys;
    forall r <- t.repos ensures u.repos[r] == t.repos[r] {
    }
  }

  // ----- Captures over whole runs -----

  /** Short of its organisation's end and of a fence, an installation keeps its owner. */
  lemma OwnerStays(s: State, op: Op, id: Id, w: Workspace)
    requires Sound(s) && id in s.installations && s.installations[id].owner == Some(w)
    requires !Fences(s, op, id) && op != Abandon(w)
    ensures id in Next(s, op).installations && Next(s, op).installations[id].owner == Some(w)
  {
    hide OneEach, JobsSound, H.Sound, HandshakeSound, ReposSound, Requested, Lifecycle, Reported, H.Held, Upserted,
      Genuine, H.Next;
    match op
    case Retry(v, admin) =>
      if Result(s, op).Committed? { RequestedOwner(s, v, None, true, id); }
    case Nudge(v, i) =>
      if Result(s, op).Committed? { RequestedOwner(s, v, Some(i), false, id); }
    case Event(i, login, action, seen) =>
      if Result(s, op).Committed? { LifecycleOwner(s, i, login, action, seen, id); }
    case Report(k, suspended) =>
      if Result(s, op).Committed? { ReportedOwner(s, k, suspended, id); }
    case _ =>
  }

  lemma RequestedOwner(s: State, w: Workspace, expected: Option<Id>, retry: bool, id: Id)
    requires id in s.installations && Requested(s, w, expected, retry).Committed?
    ensures var t := Requested(s, w, expected, retry).state;
            id in t.installations && t.installations[id].owner == s.installations[id].owner
  {
  }

  lemma LifecycleOwner(s: State, id: Id, login: string, action: Action, seen: Option<Workspace>, i: Id)
    requires i in s.installations && Lifecycle(s, id, login, action, seen).Committed?
    requires !Fences(s, Event(id, login, action, seen), i)
    ensures var t := Lifecycle(s, id, login, action, seen).state;
            i in t.installations && t.installations[i].owner == s.installations[i].owner
  {
    hide Requested;
    var t := s.(installations := Noted(s.installations, id, login));
    var row := t.installations[id];
    if action == OtherAction && !row.deleted && seen.Some? && row.verified && !row.suspended {
      RequestedOwner(t, seen.value, Some(id), false, i);
    }
  }

  lemma ReportedOwner(s: State, k: Sync, suspended: bool, i: Id)
    requires i in s.installations && Reported(s, k, suspended).Committed?
    ensures var t := Reported(s, k, suspended).state;
            i in t.installations && t.installations[i].owner == s.installations[i].owner
  {
    hide Requested;
    var row := s.installations[k.installation];
    var t := s.(installations :=
                s.installations[k.installation := row.(suspended := suspended && row.suspended, error := None)]);
    if !suspended && row.owner.Some? && row.verified {
      RequestedOwner(t, row.owner.value, Some(k.installation), false, i);
    }
  }

  /** One step: what was captured stays current exactly if nothing fences it and its organisation stays. */
  lemma CurrentStep(s: State, op: Op, k: Sync)
    requires Sound(s) && Current(s, k)
    ensures Current(Next(s, op), k) <==> !Fences(s, op, k.installation) && op != Abandon(k.workspace.value)
  {
    hide Sound, Fences, Next;
    FenceBumps(s, op, k.installation);
    StepSound(s, op);
    if !Fences(s, op, k.installation) {
      if op != Abandon(k.workspace.value) {
        OwnerStays(s, op, k.installation, k.workspace.value);
      } else {
        AbandonOrphans(s, k);
      }
    }
  }

  lemma AbandonOrphans(s: State, k: Sync)
    requires Current(s, k)
    ensures !Current(Next(s, Abandon(k.workspace.value)), k)
  {
  }

  /** A capture that has passed is never current again. */
  lemma PassedStep(s: State, op: Op, k: Sync)
    requires Sound(s) && Passed(s, k)
    ensures Passed(Next(s, op), k)
  {
    hide Sound, Next;
    StepSound(s, op);
  }

  /** The generation has moved on, or the installation has lost its owner. */
  predicate Passed(s: State, k: Sync) {
    && k.installation in s.installations
    && var row := s.installations[k.installation];
       row.generation > k.generation || (row.generation == k.generation && row.owner.None?)
  }

  lemma FencedPasses(s: State, op: Op, k: Sync)
    requires Sound(s) && Current(s, k) && !Current(Next(s, op), k)
    ensures Passed(Next(s, op), k)
  {
    hide Sound, Fences, Next;
    StepSound(s, op);
  }

  /**
   * What was captured is current after a run exactly if no binding, retry, suspension, end of suspension or
   * deletion of its installation was committed, and its organisation was not deleted.
   */
  lemma {:induction false} CurrentExactly(s: State, ops: seq<Op>, k: Sync)
    requires Sound(s) && Current(s, k)
    ensures Current(Run(s, ops), k) <==> Unfenced(s, ops, k.installation) && Abandon(k.workspace.value) !in ops
    ensures !Current(Run(s, ops), k) ==> Passed(Run(s, ops), k)
  {
    if ops != [] {
      hide Sound, Run, Next, Fences, Current, Passed, Unfenced;
      var prior, op := ops[..|ops| - 1], ops[|ops| - 1];
      CurrentExactly(s, prior, k);
      RunSound(s, prior);
      CurrentIs(s, k);
      UnfencedSplits(s, ops, k.installation);
      CurrentIs(Run(s, prior), k);
      RunStep(s, ops);
      InLast(ops, Abandon(k.workspace.value));
      if Current(Run(s, prior), k) {
        CurrentStep(Run(s, prior), op, k);
        if !Current(Run(s, ops), k) { FencedPasses(Run(s, prior), op, k); }
      } else {
        PassedStep(Run(s, prior), op, k);
        PassedIsNotCurrent(Run(s, ops), k);
      }
    }
  }

  lemma RunStep(s: State, ops: seq<Op>)
    requires ops != []
    ensures Run(s, ops) == Next(Run(s, ops[..|ops| - 1]), ops[|ops| - 1])
  {
    hide Next;
  }

  lemma InLast(ops: seq<Op>, op: Op)
    requires ops != []
    ensures op in ops <==> op in ops[..|ops| - 1] || op == ops[|ops| - 1]
  {
    assert ops == ops[..|ops| - 1] + [ops[|ops| - 1]];
  }

  lemma CurrentIs(s: State, k: Sync)
    ensures Current(s, k) ==> k.installation in s.installations && k.workspace.Some?
  {
  }

  lemma PassedIsNotCurrent(s: State, k: Sync)
    requires Passed(s, k)
    ensures !Current(s, k)
  {
  }

  lemma UnfencedSplits(s: State, ops: seq<Op>, id: Id)
    requires ops != []
    ensures Unfenced(s, ops, id) <==>
            && Unfenced(s, ops[..|ops| - 1], id) && id in Run(s, ops[..|ops| - 1]).installations
            && !Fences(Run(s, ops[..|ops| - 1]), ops[|ops| - 1], id)
  {
    hide Run, Fences;
    var prior, n := ops[..|ops| - 1], |ops| - 1;
    assert forall i | 0 <= i < n :: ops[..i] == prior[..i] && ops[i] == prior[i];
    if Unfenced(s, ops, id) {
      assert id in Run(s, ops[..n]).installations && !Fences(Run(s, ops[..n]), ops[n], id);
      forall i | 0 <= i < n
        ensures id in Run(s, prior[..i]).installations && !Fences(Run(s, prior[..i]), prior[i], id)
      {
        assert id in Run(s, ops[..i]).installations;
      }
    } else if Unfenced(s, prior, id) && id in Run(s, prior).installations && !Fences(Run(s, prior), ops[n], id) {
      UnfencedStep(s, ops, id);
    }
  }

  // ----- Late and repeated listings -----

  /** A listing of the capture commits exactly if nothing fenced the capture since and no row is foreign. */
  lemma ApplyCommitsExactly(s: State, ops: seq<Op>, k: Sync, listing: seq<Listed>)
    requires Sound(s) && Current(s, k)
    ensures Snapshot(Run(s, ops), k, listing).Committed? <==>
            && Unfenced(s, ops, k.installation) && Abandon(k.workspace.value) !in ops
            && !Foreign(Run(s, ops).repos, k.workspace.value, listing)
  {
    hide Sound, Run, Unfenced, Current, Snapshot, Foreign;
    CurrentIs(s, k);
    CurrentExactly(s, ops, k);
    RunSound(s, ops);
    SnapshotCommits(Run(s, ops), k, listing);
  }

  /** The rows say what the listing said, and nothing else of the installation is connected. */
  predicate Settled(s: State, k: Sync, listing: seq<Listed>)
    requires k.workspace.Some?
  {
    && (forall r <- Ids(listing) ::
          && r in s.repos
          && var e := LastEntry(listing, r);
             s.repos[r] == Repo(k.workspace.value, k.installation, e.owner, e.name, Branch(e), true))
    && (forall r <- s.repos ::
          r !in Ids(listing) && s.repos[r].workspace == k.workspace.value
          && s.repos[r].installation == k.installation ==>
            !s.repos[r].connected)
  }

  lemma SnapshotSettles(s: State, k: Sync, listing: seq<Listed>)
    requires Snapshot(s, k, listing).Committed?
    ensures Settled(Snapshot(s, k, listing).state, k, listing)
    ensures Current(Snapshot(s, k, listing).state, k)
  {
    hide Upserted, Pruned, LastEntry, Branch;
    SnapshotListing(s, k, listing);
  }

  /** The operation commits a listing of the installation. */
  ghost predicate Lists(s: State, op: Op, id: Id) {
    op.Apply? && op.sync.installation == id && Result(s, op).Committed?
  }

  ghost predicate Unlisted(s: State, ops: seq<Op>, id: Id) {
    ops == [] || (Unlisted(s, ops[..|ops| - 1], id) && !Lists(Run(s, ops[..|ops| - 1]), ops[|ops| - 1], id))
  }

  lemma SettledStep(s: State, op: Op, k: Sync, listing: seq<Listed>)
    requires Sound(s) && Current(s, k) && Settled(s, k, listing) && Current(Next(s, op), k)
             && !Lists(s, op, k.installation)
    ensures Settled(Next(s, op), k, listing)
  {
    SoundOwners(s);
    hide Settled, Next, Current, Sound, Lists, Result;
    CurrentIs(s, k);
    CurrentStep(s, op, k);
    match op
    case Apply(k', other) => OtherListing(s, k', other, k, listing);
    case Event(id, login, action, seen) => OtherDeletion(s, id, login, action, seen, k, listing);
    case Abandon(w) => OtherWorkspace(s, w, k, listing);
    case _ =>
      SameRepos(s, op);
      SameSettled(s, Next(s, op), k, listing);
  }

  lemma SoundOwners(s: State)
    requires Sound(s)
    ensures OneEach(s.installations)
  {
  }

  lemma SameSettled(s: State, t: State, k: Sync, listing: seq<Listed>)
    requires k.workspace.Some? && Settled(s, k, listing) && t.repos == s.repos
    ensures Settled(t, k, listing)
  {
  }

  lemma SameRepos(s: State, op: Op)
    requires !op.Apply? && !op.Event? && !op.Abandon?
    ensures Next(s, op).repos == s.repos
  {
    hide H.Held, H.Next, Allowed;
  }

  /** Another installation's listing meets these rows as foreign ones, so it never touches them. */
  lemma OtherListing(s: State, k': Sync, other: seq<Listed>, k: Sync, listing: seq<Listed>)
    requires Sound(s) && OneEach(s.installations) && Current(s, k) && Settled(s, k, listing)
             && !Lists(s, Apply(k', other), k.installation)
    ensures Settled(Next(s, Apply(k', other)), k, listing)
  {
    if Snapshot(s, k', other).Committed? {
      hide Upserted, Pruned, Sound, LastEntry, Branch, Current, Foreign, Ids;
      SnapshotListing(s, k', other);
      SnapshotCommits(s, k', other);
      CurrentIs(s, k);
      OtherOwner(s, k', k);
      NotForeign(s.repos, k'.workspace.value, other);
    }
  }

  lemma OtherOwner(s: State, k': Sync, k: Sync)
    requires OneEach(s.installations) && Current(s, k') && Current(s, k) && k'.installation != k.installation
    ensures k'.workspace.value != k.workspace.value
  {
    assert Owns(s.installations, k.workspace.value, k.installation)
      && Owns(s.installations, k'.workspace.value, k'.installation);
  }

  lemma NotForeign(repos: map<RepoId, Repo>, w: Workspace, listing: seq<Listed>)
    requires !Foreign(repos, w, listing)
    ensures forall r <- Ids(listing) :: r in repos ==> repos[r].workspace == w
  {
  }

  lemma OtherDeletion(s: State, id: Id, login: string, action: Action, seen: Option<Workspace>, k: Sync,
                      listing: seq<Listed>)
    requires Current(s, k) && Settled(s, k, listing) && !Fences(s, Event(id, login, action, seen), k.installation)
    ensures Settled(Next(s, Event(id, login, action, seen)), k, listing)
  {
    hide Requested, LastEntry, Branch;
    if seen.Some? {
      RequestedRepos(s.(installations := Noted(s.installations, id, login)), seen.value, Some(id), false);
    }
  }

  lemma RequestedRepos(s: State, w: Workspace, expected: Option<Id>, retry: bool)
    ensures Requested(s, w, expected, retry).Committed? ==> Requested(s, w, expected, retry).state.repos == s.repos
  {
  }

  lemma OtherWorkspace(s: State, w: Workspace, k: Sync, listing: seq<Listed>)
    requires k.workspace.Some? && w != k.workspace.value && Settled(s, k, listing)
    ensures Settled(Next(s, Abandon(w)), k, listing)
  {
    hide LastEntry, Branch;
  }

  lemma {:induction false} SettledRun(s: State, ops: seq<Op>, k: Sync, listing: seq<Listed>)
    requires Sound(s) && Current(s, k) && Settled(s, k, listing)
    requires Unlisted(s, ops, k.installation) && Current(Run(s, ops), k)
    ensures Settled(Run(s, ops), k, listing)
  {
    if ops != [] {
      hide Sound, Next, Fences, Current, Unfenced, Settled, Lists;
      var prior, op := ops[..|ops| - 1], ops[|ops| - 1];
      CurrentIs(s, k);
      CurrentExactly(s, ops, k);
      CurrentExactly(s, prior, k);
      UnfencedSplits(s, ops, k.installation);
      RunSound(s, prior);
      SettledRun(s, prior, k, listing);
      SettledStep(Run(s, prior), op, k, listing);
    }
  }

  lemma SettledIsListing(s: State, k: Sync, listing: seq<Listed>)
    requires Sound(s) && Current(s, k) && Settled(s, k, listing)
    ensures forall r ::
              r in s.repos && s.repos[r].installation == k.installation && s.repos[r].connected <==> r in Ids(listing)
  {
    hide H.Sound, JobsSound, OneEach, HandshakeSound, LastEntry, Branch;
    forall r | r in s.repos && s.repos[r].connected && s.repos[r].installation == k.installation
      ensures s.repos[r].workspace == k.workspace.value
    {
      assert RepoSound(s, s.repos[r]);
    }
  }

  /**
   * The last listing to commit decides: whatever else happens, as long as its capture is current the connected
   * repositories of the installation are the ones it listed.
   */
  lemma LastListingDecides(s: State, k: Sync, listing: seq<Listed>, ops: seq<Op>)
    requires Sound(s) && Snapshot(s, k, listing).Committed?
    requires var t := Snapshot(s, k, listing).state; Unlisted(t, ops, k.installation) && Current(Run(t, ops), k)
    ensures var u := Run(Snapshot(s, k, listing).state, ops);
            forall r :: r in u.repos && u.repos[r].installation == k.installation && u.repos[r].connected <==>
              r in Ids(listing)
  {
    hide Sound, Snapshot, Run, Current, Settled, Unlisted;
    var t := Snapshot(s, k, listing).state;
    SnapshotSettles(s, k, listing);
    CurrentIs(t, k);
    SnapshotSound(s, k, listing);
    SettledRun(t, ops, k, listing);
    RunSound(t, ops);
    SettledIsListing(Run(t, ops), k, listing);
  }

  /**
   * Delivering a listing again, after any operations among which no other listing of the installation committed,
   * is refused or leaves every repository as it was.
   */
  lemma RedeliveryChangesNothing(s: State, k: Sync, listing: seq<Listed>, ops: seq<Op>)
    requires Sound(s) && Snapshot(s, k, listing).Committed?
             && Unlisted(Snapshot(s, k, listing).state, ops, k.installation)
    ensures var u := Run(Snapshot(s, k, listing).state, ops);
            Snapshot(u, k, listing).Refused? || Snapshot(u, k, listing).state.repos == u.repos
  {
    hide Sound, Snapshot, Run, Current, Settled, Unlisted;
    var t := Snapshot(s, k, listing).state;
    var u := Run(t, ops);
    SnapshotSettles(s, k, listing);
    CurrentIs(t, k);
    SnapshotSound(s, k, listing);
    RunSound(t, ops);
    if Snapshot(u, k, listing).Committed? {
      SnapshotCommits(u, k, listing);
      SettledRun(t, ops, k, listing);
      SettledAgain(u, k, listing);
    }
  }

  lemma SettledAgain(s: State, k: Sync, listing: seq<Listed>)
    requires k.workspace.Some? && Settled(s, k, listing) && Snapshot(s, k, listing).Committed?
    ensures Snapshot(s, k, listing).state.repos == s.repos
  {
    hide Upserted, Pruned, LastEntry, Branch;
    SnapshotListing(s, k, listing);
    var t := Snapshot(s, k, listing).state;
    assert t.repos.Keys == s.repos.Keys;
    forall r <- s.repos ensures t.repos[r] == s.repos[r] {
    }
  }

  /**
   * The generation does not order two listings of one capture: an older one that arrives after a newer one and
   * meets no foreign row commits, and its repositories are the connected ones.
   */
  lemma OlderListingWins(s: State, k: Sync, newer: seq<Listed>, older: seq<Listed>)
    requires Sound(s) && Snapshot(s, k, newer).Committed? && !Foreign(s.repos, k.workspace.value, older)
    ensures var t := Snapshot(s, k, newer).state;
            && Snapshot(t, k, older).Committed?
            && var u := Snapshot(t, k, older).state;
               forall r :: r in u.repos && u.repos[r].installation == k.installation && u.repos[r].connected <==>
                 r in Ids(older)
  {
    hide Sound, Snapshot, Current, Foreign;
    var t := Snapshot(s, k, newer).state;
    SnapshotSettles(s, k, newer);
    SnapshotSound(s, k, newer);
    StillNotForeign(s, k, newer, older);
    SnapshotCommits(t, k, older);
    SnapshotIsListing(t, k, older);
  }

  lemma StillNotForeign(s: State, k: Sync, newer: seq<Listed>, older: seq<Listed>)
    requires Sound(s) && Snapshot(s, k, newer).Committed? && !Foreign(s.repos, k.workspace.value, older)
    ensures !Foreign(Snapshot(s, k, newer).state.repos, k.workspace.value, older)
  {
    hide Upserted, Pruned, H.Sound, JobsSound, ReposSound, HandshakeSound, OneEach;
    SnapshotListing(s, k, newer);
    SnapshotCommits(s, k, newer);
  }

  // ----- Late answers about suspension -----

  /** The answer of the provider still concerns the binding and generation it was asked under. */
  predicate Awaited(s: State, k: Sync) {
    && k.installation in s.installations
    && var row := s.installations[k.installation];
       row.generation == k.generation && row.owner == k.workspace && !row.deleted
  }

  /** An answer takes effect exactly while it is awaited. */
  lemma ReportNeedsAwaited(s: State, k: Sync, suspended: bool)
    requires Sound(s)
    ensures Reported(s, k, suspended).Committed? <==> Awaited(s, k)
  {
    hide H.Sound, JobsSound, ReposSound, HandshakeSound, Requested;
    if Awaited(s, k) {
      var row := s.installations[k.installation];
      if !suspended && row.owner.Some? && row.verified {
        var t := s.(installations := s.installations[k.installation := row.(suspended := false, error := None)]);
        SameOwnersOneEach(s.installations, t.installations);
        assert Owns(t.installations, row.owner.value, k.installation);
        RequestedOf(t, row.owner.value, k.installation, Some(k.installation), false);
      }
    }
  }

  /** An answer asked for under a generation takes effect only if nothing fenced the installation since. */
  lemma AnswerIsFenced(s: State, ops: seq<Op>, k: Sync)
    requires Sound(s) && Awaited(s, k) && Awaited(Run(s, ops), k)
    ensures Unfenced(s, ops, k.installation)
  {
    hide Sound, Run, Unfenced;
    FencesShow(s, ops, k.installation);
  }

  /** Work queued by an operation for an installation has a generation above all it had before. */
  lemma NewJobsAreLater(s: State, op: Op, id: Id)
    requires Sound(s) && id in s.installations
    ensures var jobs := Next(s, op).jobs;
            forall i | |s.jobs| <= i < |jobs| ::
              jobs[i].sync.installation == id ==> jobs[i].sync.generation > s.installations[id].generation
  {
    hide OneEach, JobsSound, H.Sound, HandshakeSound, ReposSound, Requested, H.Held, Upserted, Genuine, H.Next;
    match op
    case Retry(w, _) => RequestedJob(s, w, None, true, id);
    case Nudge(w, i) => RequestedJob(s, w, Some(i), false, id);
    case Event(i, login, _, seen) =>
      if seen.Some? {
        RequestedJob(s.(installations := Noted(s.installations, i, login)), seen.value, Some(i), false, id);
      }
    case Report(k, suspended) =>
      if k.installation in s.installations && s.installations[k.installation].owner.Some? {
        var row := s.installations[k.installation];
        RequestedJob(
          s.(installations :=
             s.installations[k.installation := row.(suspended := suspended && row.suspended, error := None)]),
          row.owner.value, Some(k.installation), false, id);
      }
    case _ =>
  }

  lemma RequestedJob(s: State, w: Workspace, expected: Option<Id>, retry: bool, id: Id)
    requires id in s.installations
    ensures Requested(s, w, expected, retry).Committed? ==>
              var jobs := Requested(s, w, expected, retry).state.jobs;
              |jobs| == |s.jobs| + 1 && jobs[..|s.jobs|] == s.jobs
              && (jobs[|s.jobs|].sync.installation == id ==>
                  jobs[|s.jobs|].sync.generation > s.installations[id].generation)
  {
  }

  lemma {:induction false} LaterJobs(s: State, ops: seq<Op>, id: Id)
    requires Sound(s) && id in s.installations
    ensures var jobs := Run(s, ops).jobs;
            && s.jobs <= jobs
            && forall i | |s.jobs| <= i < |jobs| ::
               jobs[i].sync.installation == id ==> jobs[i].sync.generation > s.installations[id].generation
  {
    hide Sound, Next;
    if ops != [] {
      var prior := ops[..|ops| - 1];
      LaterJobs(s, prior, id);
      RunSound(s, prior);
      StepSound(Run(s, prior), ops[|ops| - 1]);
      NewJobsAreLater(Run(s, prior), ops[|ops| - 1], id);
    }
  }

  /** The generation handed to a suspension check is never that of queued work, before or after. */
  lemma CheckGenerationIsUnique(s: State, id: Id, login: string, action: Action, seen: Option<Workspace>, ops: seq<Op>)
    requires Sound(s) && (action == SuspendAction || action == UnsuspendAction)
    requires Lifecycle(s, id, login, action, seen).Committed?
             && (id in s.installations ==> !s.installations[id].deleted)
    ensures var t := Lifecycle(s, id, login, action, seen).state;
            id in t.installations &&
            forall job <- Run(t, ops).jobs ::
              job.sync.installation == id ==> job.sync.generation != t.installations[id].generation
  {
    hide Run, Requested;
    var t := Lifecycle(s, id, login, action, seen).state;
    LifecycleSound(s, id, login, action, seen);
    LaterJobs(t, ops, id);
    assert t.jobs == s.jobs;
    EarlierJobs(s, t, id);
  }

  lemma EarlierJobs(s: State, t: State, id: Id)
    requires JobsSound(s.installations, s.jobs) && t.jobs == s.jobs && id in t.installations
    requires id in s.installations ==> s.installations[id].generation < t.installations[id].generation
    ensures forall i | 0 <= i < |t.jobs| ::
              t.jobs[i].sync.installation == id ==> t.jobs[i].sync.generation < t.installations[id].generation
  {
  }

  // ----- Ownership -----

  /** A repository stays with its organisation for as long as the organisation exists. */
  lemma {:induction false} OwnershipNeverChanges(s: State, ops: seq<Op>, r: RepoId)
    requires Sound(s) && r in s.repos && Abandon(s.repos[r].workspace) !in ops
    ensures r in Run(s, ops).repos && Run(s, ops).repos[r].workspace == s.repos[r].workspace
  {
    hide Sound, Next;
    if ops != [] {
      var prior := ops[..|ops| - 1];
      OwnershipNeverChanges(s, prior, r);
      RunSound(s, prior);
      RepoStays(Run(s, prior), ops[|ops| - 1], r);
      StepSound(Run(s, prior), ops[|ops| - 1]);
    }
  }

  lemma RepoStays(s: State, op: Op, r: RepoId)
    requires r in s.repos && op != Abandon(s.repos[r].workspace)
    ensures r in Next(s, op).repos
  {
    hide H.Held, H.Next, Allowed, Current, Upserted;
    match op
    case Apply(k, listing) =>
      if Result(s, op).Committed? { SnapshotListing(s, k, listing); }
    case _ =>
  }

  // ----- The handshake and the binding -----

  /** The setup row and its grant are complete. */
  predicate Completed(s: State, h: H.Hash) {
    h in s.handshake.setups && s.handshake.setups[h].completed
  }

  /**
   * A setup becomes complete only in the transaction that completes its grant, binds the installation
   * the user chose to the organisation of the setup, and queues the first reading at its new generation.
   */
  lemma CompletedByBinding(s: State, op: Op, h: H.Hash)
    requires Sound(s) && !Completed(s, h) && Completed(Next(s, op), h)
    ensures op.Bind? && Result(s, op).Committed? && op.a.setup == Some(h) && h in s.handshake.setups
    ensures var t, setup := Next(s, op), s.handshake.setups[h];
            && op.a.state in t.handshake.grants
            && t.handshake.grants[op.a.state].completed && t.handshake.grants[op.a.state].setup == Some(h)
            && Owns(t.installations, setup.workspace, setup.candidate)
            && var row := t.installations[setup.candidate];
               && row.verified && !row.deleted && !row.synced
               && t.jobs == s.jobs + [Job(if row.suspended then SyncState else SyncRepos,
                                          Sync(setup.candidate, Some(setup.workspace), row.generation))]
  {
    hide Sound, H.Held, H.Next;
    if !op.Bind? {
      OnlyBindingCompletes(s, op, h);
    } else {
      HeldGrant(s.handshake, op.a, op.admin, op.live, op.later);
    }
  }

  lemma HeldGrant(t: H.Tables, a: H.Evidence, admin: bool, live: bool, at: H.Time)
    ensures H.Held(t, a, admin, live, at) ==>
              && a.setup.Some? && a.setup.value in t.setups && a.state in t.grants && t.grants[a.state].setup == a.setup
              && t.setups[a.setup.value].workspace == a.workspace && t.setups[a.setup.value].candidate == a.candidate
  {
  }

  lemma OnlyBindingCompletes(s: State, op: Op, h: H.Hash)
    requires !op.Bind? && Completed(Next(s, op), h)
    ensures Completed(s, h)
  {
    hide Requested, Current, Upserted, Allowed, H.Next;
    match op
    case Authorize(e) =>
      if Allowed(s, e) && !Completed(s, h) { AuthorizeCompletesNothing(s, e, h); }
    case Retry(w, _) => RequestedElsewhere(s, w, None, true);
    case Nudge(w, id) => RequestedElsewhere(s, w, Some(id), false);
    case Event(id, login, _, seen) =>
      if seen.Some? {
        RequestedElsewhere(s.(installations := Noted(s.installations, id, login)), seen.value, Some(id), false);
      }
    case Report(k, suspended) =>
      if k.installation in s.installations && s.installations[k.installation].owner.Some? {
        var row := s.installations[k.installation];
        RequestedElsewhere(
          s.(installations :=
             s.installations[k.installation := row.(suspended := suspended && row.suspended, error := None)]),
          row.owner.value, Some(k.installation), false);
      }
    case _ =>
  }

  lemma RequestedElsewhere(s: State, w: Workspace, expected: Option<Id>, retry: bool)
    ensures Requested(s, w, expected, retry).Committed? ==>
              Requested(s, w, expected, retry).state.handshake == s.handshake
  {
  }

  lemma AuthorizeCompletesNothing(s: State, e: H.Event, h: H.Hash)
    requires Allowed(s, e) && !Completed(s, h)
    ensures !Completed(s.(handshake := H.Next(s.handshake, s.handshake.setups.Keys + s.handshake.grants.Keys, e)), h)
  {
  }

  // ----- The store -----

  /** How a transaction ends: with its new state, or with an error and the old one. */
  ghost predicate Ends(o: Outcome, before: State, after: State, error: Option<Error>) {
    match o
    case Committed(t) => after == t && error.None?
    case Refused(e) => after == before && error == Some(e)
  }

  class Store {
    var workspaces: set<Workspace>
    var installations: map<Id, Installation>
    var repos: map<RepoId, Repo>
    var jobs: seq<Job>
    var evidence: seq<(RepoRef, string)>
    const handshakes: H.Handshakes

    function Tables(): State
      reads this, handshakes
    {
      State(workspaces, installations, repos, jobs, evidence, handshakes.Rows())
    }

    constructor ()
      ensures fresh(handshakes) && Tables() == EMPTY
    {
      workspaces, installations, repos, jobs, evidence := {}, map[], map[], [], [];
      handshakes := new H.Handshakes();
    }

    /** The rows with the organisation's single slot free for an installation, unless another still holds it. */
    method ReleaseSlot(w: Workspace, id: Id) returns (after: Option<map<Id, Installation>>)
      requires OneEach(installations)
      ensures after.None? <==> SlotTaken(installations, w, id)
      ensures after.Some? ==> after.value == Released(installations, w, id)
    {
      hide OneEach, SlotTaken, Released;
      if !exists i <- installations :: Owns(installations, w, i) {
        ReleasedNone(installations, w, id);
        return Some(installations);
      }
      var existing :| existing in installations && Owns(installations, w, existing);
      ReleasedOne(installations, w, id, existing);
      if existing == id {
        return Some(installations);
      }
      var row := installations[existing];
      if !row.deleted {
        return None;
      }
      return Some(installations[existing := row.(owner := None, generation := row.generation + 1)]);
    }

    method BindInstallation(a: H.Evidence, v: Verified, admin: bool, live: bool, now: H.Time, later: H.Time)
      returns (error: Option<Error>)
      requires OneEach(installations)
      modifies this, handshakes
      ensures Ends(Bound(old(Tables()), a, v, admin, live, now, later), old(Tables()), Tables(), error)
    {
      hide H.Held, OneEach, SlotTaken, Released, BoundRow, Genuine;
      if !Genuine(a, v) || !H.Held(handshakes.Rows(), a, admin, live, now) {
        return Some(NotFound);
      }
      var w := a.workspace;
      if v.id in installations {
        if installations[v.id].owner.Some? && installations[v.id].owner != Some(w) {
          return Some(InstallationConflict);
        }
        if installations[v.id].deleted {
          return Some(InstallationConflict);
        }
      }
      var after := ReleaseSlot(w, v.id);
      if after.None? {
        return Some(InstallationConflict);
      }
      var row := BoundRow(installations, w, v);
      var kind := if row.suspended then SyncState else SyncRepos;
      var completed := handshakes.CompleteGitHubInstallationAuthorization(a, admin, live, later);
      if !completed {
        return Some(NotFound);
      }
      installations := after.value[v.id := row];
      jobs := jobs + [Job(kind, Sync(v.id, Some(w), row.generation))];
      return None;
    }

    method EnqueueInstallationSync(w: Workspace, expected: Option<Id>, retrySuspended: bool)
      returns (error: Option<Error>)
      requires OneEach(installations)
      modifies this`installations, this`jobs
      ensures Ends(Requested(old(Tables()), w, expected, retrySuspended), old(Tables()), Tables(), error)
    {
      if !exists i <- installations :: Owns(installations, w, i) {
        return Some(NotFound);
      }
      var id :| id in installations && Owns(installations, w, id);
      RequestedOf(Tables(), w, id, expected, retrySuspended);
      var row := installations[id];
      if expected.Some? && expected.value != id {
        return Some(StaleSync);
      }
      if !row.verified {
        return Some(VerificationRequired);
      }
      if row.deleted || (row.suspended && !retrySuspended) {
        return Some(StaleSync);
      }
      row := row.(generation := row.generation + 1, synced := false, error := None);
      installations := installations[id := row];
      jobs := jobs + [Job(if row.suspended then SyncState else SyncRepos, Sync(id, Some(w), row.generation))];
      return None;
    }

    method RequestInstallationSync(w: Workspace, admin: bool) returns (error: Option<Error>)
      requires OneEach(installations)
      modifies this`installations, this`jobs
      ensures Ends(Retried(old(Tables()), w, admin), old(Tables()), Tables(), error)
    {
      hide Requested, OneEach;
      if w !in workspaces || !admin {
        return Some(NotFound);
      }
      error := EnqueueInstallationSync(w, None, true);
    }

    /** Errors are not reported: an event about a binding that changed meanwhile is dropped. */
    method RequestInstallationSyncForEvent(w: Workspace, id: Id)
      requires OneEach(installations)
      modifies this`installations, this`jobs
      ensures Tables() == Next(old(Tables()), Nudge(w, id))
    {
      hide Requested, OneEach;
      if w in workspaces {
        var _ := EnqueueInstallationSync(w, Some(id), false);
      }
    }

    /** Writes the listing row by row into a copy, so that a foreign row discards all of it. */
    method ApplyInstallationRepos(k: Sync, listing: seq<Listed>) returns (error: Option<Error>)
      modifies this`installations, this`repos
      ensures Ends(Snapshot(old(Tables()), k, listing), old(Tables()), Tables(), error)
    {
      hide H.Held;
      if k.workspace.None? || k.workspace.value !in workspaces {
        return Some(NotFound);
      }
      if !Current(Tables(), k) {
        return Some(StaleSync);
      }
      var w := k.workspace.value;
      var written, named := repos, {};
      for n := 0 to |listing|
        invariant named == Ids(listing[..n])
        invariant Upserted(repos, w, k.installation, listing[..n]) == Some(written)
      {
        var entry := listing[n];
        assert listing[..n + 1][..n] == listing[..n];
        named := named + {entry.id};
        if entry.id in written && written[entry.id].workspace != w {
          UpsertedFails(repos, w, k.installation, listing, n + 1);
          return Some(RepositoryConflict);
        }
        written := written[entry.id := Repo(w, k.installation, entry.owner, entry.name, Branch(entry), true)];
      }
      assert listing[..|listing|] == listing;
      repos := Pruned(written, w, k.installation, named);
      installations := installations[k.installation := installations[k.installation].(synced := true, error := None)];
      return None;
    }

    method FailInstallationSync(k: Sync, code: string)
      modifies this`installations
      ensures Tables() == SyncFailed(old(Tables()), k, code)
    {
      if k.workspace.Some? && k.installation in installations && installations[k.installation].owner == k.workspace
         && installations[k.installation].generation == k.generation {
        installations := installations[k.installation :=
                                       installations[k.installation].(error := Some(SafeError(code)))];
      }
    }

    /** A suspension change also returns the generation under which to ask the provider. */
    method InstallationEvent(id: Id, login: string, action: Action, seen: Option<Workspace>)
      returns (error: Option<Error>, check: Option<Sync>)
      requires OneEach(installations)
      modifies this`installations, this`repos, this`jobs
      ensures Ends(Lifecycle(old(Tables()), id, login, action, seen), old(Tables()), Tables(), error)
      ensures check.Some? <==>
              && error.None? && (action == SuspendAction || action == UnsuspendAction)
              && (id in old(installations) ==> !old(installations)[id].deleted)
      ensures check.Some? ==> id in installations && check.value == Sync(id, seen, installations[id].generation)
    {
      hide Requested, OneEach;
      check := None;
      if seen.Some? && seen.value !in workspaces {
        return Some(NotFound), None;
      }
      var noted := Noted(installations, id, login);
      var row := noted[id];
      if row.owner != seen {
        return Some(StaleSync), None;
      }
      if row.deleted {
        return None, None;
      }
      match action
      case DeletedAction =>
        repos := Disconnected(repos, id);
        installations := noted[id := row.(deleted := true, owner := None, verified := false,
                                          generation := row.generation + 1, error := None)];
        return None, None;
      case SuspendAction =>
        installations := noted[id := Fenced(row)];
        return None, Some(Sync(id, seen, row.generation + 1));
      case UnsuspendAction =>
        installations := noted[id := Fenced(row)];
        return None, Some(Sync(id, seen, row.generation + 1));
      case OtherAction =>
        if seen.None? || !row.verified || row.suspended {
          installations := noted;
          return None, None;
        }
        error := EnqueueInstallationSync(seen.value, Some(id), false);
    }

    method ApplyInstallationState(k: Sync, suspended: bool) returns (error: Option<Error>)
      requires OneEach(installations)
      modifies this`installations, this`jobs
      ensures Ends(Reported(old(Tables()), k, suspended), old(Tables()), Tables(), error)
    {
      hide OneEach, Requested;
      if k.workspace.Some? && k.workspace.value !in workspaces {
        return Some(NotFound);
      }
      if k.installation !in installations {
        return Some(StaleSync);
      }
      var row := installations[k.installation];
      if row.generation != k.generation || row.owner != k.workspace || row.deleted {
        return Some(StaleSync);
      }
      ghost var before := installations;
      installations := installations[k.installation := row.(suspended := suspended && row.suspended, error := None)];
      if !suspended && row.owner.Some? && row.verified {
        SameOwnersOneEach(before, installations);
        RequestedOf(Tables(), row.owner.value, k.installation, Some(k.installation), false);
        error := EnqueueInstallationSync(row.owner.value, Some(k.installation), false);
      } else {
        return None;
      }
    }

    /** An evidence write whose binding moved on is dropped without an error. */
    method WithActiveRepo(ref: RepoRef, note: string)
      modifies this`evidence
      ensures Tables() == Written(old(Tables()), ref, note)
    {
      if ref.workspace in workspaces && Writable(Tables(), ref) {
        evidence := evidence + [(ref, note)];
      }
    }
  }

  lemma ReleasedNone(installations: map<Id, Installation>, w: Workspace, id: Id)
    requires forall i <- installations :: !Owns(installations, w, i)
    ensures Released(installations, w, id) == installations && !SlotTaken(installations, w, id)
  {
    assert forall i <- installations :: Owns(installations, w, i) == (installations[i].owner == Some(w));
  }

  lemma ReleasedOne(installations: map<Id, Installation>, w: Workspace, id: Id, existing: Id)
    requires OneEach(installations) && Owns(installations, w, existing)
    ensures Released(installations, w, id) ==
            if existing == id then installations
            else installations[existing :=
                               installations[existing].(owner := None,
                                                        generation := installations[existing].generation + 1)]
    ensures SlotTaken(installations, w, id) <==> existing != id && !installations[existing].deleted
  {
    assert forall i <- installations :: installations[i].owner == Some(w) <==> Owns(installations, w, i);
    assert forall i <- installations :: installations[i].owner == Some(w) ==> i == existing;
  }

  /** Once writing a listing fails it has failed. */
  lemma {:induction false} UpsertedFails(repos: map<RepoId, Repo>, w: Workspace, id: Id, listing: seq<Listed>, n: nat)
    requires n <= |listing| && Upserted(repos, w, id, listing[..n]).None?
    ensures Upserted(repos, w, id, listing).None?
    decreases |listing|
  {
    if n < |listing| {
      assert listing[..|listing| - 1][..n] == listing[..n];
      UpsertedFails(repos, w, id, listing[..|listing| - 1], n);
    } else {
      assert listing[..n] == listing;
    }
  }
}
