/**
 * What each transaction on an installation does, field by field and table by table, and what that means for a
 * suspension over whole runs.
 */
module Effects {
  import opened Bytes
  import opened Installations
  import H = Handshake

  ghost predicate Commits(s: State, op: Op) {
    Installations.Result(s, op).Committed?
  }

  /** The row, or the one a first event inserts. */
  function RowOf(s: State, i: Id, login: string): Installation {
    if i in s.installations then s.installations[i]
    else Installation(login, None, false, false, None, false, false, 0)
  }

  /** The organisation was as it was seen before the transaction, and exists. */
  predicate SeenRight(s: State, i: Id, login: string, seen: Option<Workspace>) {
    RowOf(s, i, login).owner == seen && (seen.Some? ==> seen.value in s.workspaces)
  }

  /** The provider reports a suspension, or its end, of an installation that is not deleted. */
  predicate Suspends(s: State, op: Op, i: Id) {
    && op.Event? && op.id == i && (op.action == SuspendAction || op.action == UnsuspendAction)
    && SeenRight(s, i, op.login, op.seen) && !RowOf(s, i, op.login).deleted
  }

  /** The provider reports the deletion. */
  predicate Deletes(s: State, op: Op, i: Id) {
    && op.Event? && op.id == i && op.action == DeletedAction
    && SeenRight(s, i, op.login, op.seen) && !RowOf(s, i, op.login).deleted
  }

  /** The answer was asked for under the generation and binding the row still has. */
  predicate Answers(s: State, op: Op, i: Id) {
    && op.Report? && op.sync.installation == i && i in s.installations
    && s.installations[i].generation == op.sync.generation && s.installations[i].owner == op.sync.workspace
    && !s.installations[i].deleted && (op.sync.workspace.Some? ==> op.sync.workspace.value in s.workspaces)
  }

  /** The provider answers that the installation is not suspended. */
  predicate Clears(s: State, op: Op, i: Id) {
    Answers(s, op, i) && !op.suspended
  }

  /** A binding of the installation to the organisation commits. */
  ghost predicate Binds(s: State, op: Op, i: Id) {
    op.Bind? && op.v.id == i && Commits(s, op)
  }

  /** A new reading is asked for, and may be. */
  predicate Requeues(s: State, op: Op, i: Id) {
    && i in s.installations && s.installations[i].owner.Some? && s.installations[i].verified
    && !s.installations[i].deleted
    && s.installations[i].owner.value in s.workspaces
    && match op
       case Retry(w, admin) => admin && s.installations[i].owner == Some(w)
       case Nudge(w, id) => id == i && s.installations[i].owner == Some(w) && !s.installations[i].suspended
       case Event(id, _, OtherAction, seen) =>
         id == i && s.installations[i].owner == seen && !s.installations[i].suspended
       case Report(_, _) => Clears(s, op, i)
       case _ => false
  }

  /** The captured binding is in force, and no row of the listing belongs to another organisation. */
  predicate Lists(s: State, op: Op, i: Id) {
    && op.Apply? && op.sync.installation == i && i in s.installations && op.sync.workspace.Some?
    && s.installations[i].owner == op.sync.workspace && s.installations[i].generation == op.sync.generation
    && s.installations[i].verified && !s.installations[i].deleted && !s.installations[i].suspended
    && forall k | 0 <= k < |op.listing| ::
         op.listing[k].id in s.repos ==> s.repos[op.listing[k].id].workspace == op.sync.workspace.value
  }

  /** The captured work failed, and its binding and generation stand. */
  predicate Fails(s: State, op: Op, i: Id) {
    && op.Fail? && op.sync.installation == i && i in s.installations && op.sync.workspace.Some?
    && s.installations[i].owner == op.sync.workspace && s.installations[i].generation == op.sync.generation
  }

  /** What one transaction makes of the row of an installation. */
  ghost predicate RowFollowsOp(s: State, op: Op, i: Id, login: string, row: Installation) {
    var was := RowOf(s, i, login);
    && row.login == (if Binds(s, op, i) then op.v.login else was.login)
    && row.owner == (if Binds(s, op, i) then Some(op.a.workspace)
                     else if Deletes(s, op, i) || (was.owner.Some? && op == Abandon(was.owner.value)) then None
                     else if op.Bind? && Commits(s, op) && was.owner == Some(op.a.workspace) then None
                     else was.owner)
    && (row.verified <==> Binds(s, op, i) || (was.verified && !Deletes(s, op, i)))
    && (row.deleted <==> was.deleted || Deletes(s, op, i))
    && (row.suspended <==> Suspends(s, op, i) || (was.suspended && !Clears(s, op, i)))
    && (row.synced <==> Lists(s, op, i) || (was.synced && !Binds(s, op, i) && !Requeues(s, op, i)))
    && row.error == (if Fails(s, op, i) then
                       Some(if op.code == "repository_conflict" then "repository_conflict" else "sync_failed")
                     else if || Binds(s, op, i) || Requeues(s, op, i) || Lists(s, op, i) || Deletes(s, op, i)
                             || Answers(s, op, i)
                     then None
                     else was.error)
    && row.generation == was.generation +
         (if Binds(s, op, i) || Requeues(s, op, i) || Deletes(s, op, i) || Suspends(s, op, i)
             || (op.Bind? && Commits(s, op) && was.owner == Some(op.a.workspace)) then 1 else 0)
  }

  /** Asking, in terms of the one row the organisation owns. */
  lemma AskedOf(s: State, w: Workspace, i: Id, expected: Option<Id>, retry: bool)
    requires OneEach(s.installations) && i in s.installations
    ensures Owns(s.installations, w, i) ==>
              var row := s.installations[i];
              Requested(s, w, expected, retry) ==
              if expected.Some? && expected.value != i then Refused(StaleSync)
              else if !row.verified then Refused(VerificationRequired)
              else if row.deleted || (row.suspended && !retry) then Refused(StaleSync)
              else Committed(Requeued(s, i, w))
    ensures !Owns(s.installations, w, i) && Requested(s, w, expected, retry).Committed? ==>
              var t := Requested(s, w, expected, retry).state;
              expected != Some(i) && i in t.installations && t.installations[i] == s.installations[i]
  {
    hide OneEach;
    if Owns(s.installations, w, i) {
      RequestedOf(s, w, i, expected, retry);
    } else if j :| Owns(s.installations, w, j) {
      RequestedOf(s, w, j, expected, retry);
    }
  }

  lemma RetryRow(s: State, op: Op, i: Id)
    requires Sound(s) && i in s.installations && (op.Retry? || op.Nudge?)
    ensures i in Next(s, op).installations && RowFollowsOp(s, op, i, "", Next(s, op).installations[i])
  {
    hide H.Sound, JobsSound, ReposSound, HandshakeSound, Requested, OneEach;
    AskedOf(s, op.workspace, i, if op.Retry? then None else Some(op.id), op.Retry?);
  }

  /** Asking because of an event: nothing but the reading is asked for. */
  lemma EventAsks(s: State, op: Op, i: Id)
    requires Sound(s) && op.Event? && op.action == OtherAction && op.seen.Some? && op.seen.value in s.workspaces
    requires op.id in s.installations && s.installations[op.id].owner == op.seen
    requires s.installations[op.id].verified && !s.installations[op.id].suspended && !s.installations[op.id].deleted
    ensures Installations.Result(s, op) == Committed(Requeued(s, op.id, op.seen.value))
  {
    hide H.Sound, JobsSound, ReposSound, HandshakeSound, Requested, OneEach;
    AskedOf(s, op.seen.value, op.id, Some(op.id), false);
    assert s.(installations := s.installations) == s;
  }

  lemma EventRow(s: State, op: Op, i: Id)
    requires Sound(s) && op.Event? && (i in s.installations || i in Next(s, op).installations)
    ensures i in Next(s, op).installations && RowFollowsOp(s, op, i, op.login, Next(s, op).installations[i])
    ensures i in s.installations || i == op.id
  {
    hide H.Sound, JobsSound, ReposSound, HandshakeSound, Requested, OneEach;
    var row := RowOf(s, op.id, op.login);
    if op.action == OtherAction && op.seen.Some? && op.seen.value in s.workspaces && row.owner == op.seen
       && row.verified && !row.suspended && !row.deleted {
      EventAsks(s, op, i);
    } else {
      if i == op.id { EventElse(s, op, i); } else { EventElsewhere(s, op, i); }
    }
  }

  lemma EventElsewhere(s: State, op: Op, i: Id)
    requires op.Event? && i != op.id && (i in s.installations || i in Next(s, op).installations)
    requires var row := RowOf(s, op.id, op.login);
             !(op.action == OtherAction && op.seen.Some? && op.seen.value in s.workspaces && row.owner == op.seen
               && row.verified && !row.suspended && !row.deleted)
    ensures i in s.installations && i in Next(s, op).installations
    ensures RowFollowsOp(s, op, i, op.login, Next(s, op).installations[i])
  {
    hide Requested, Disconnected;
    assert Next(s, op).installations == s.installations
           || (op.id in Next(s, op).installations
               && Next(s, op).installations == s.installations[op.id := Next(s, op).installations[op.id]]);
  }

  lemma EventElse(s: State, op: Op, i: Id)
    requires op.Event? && i == op.id && (i in s.installations || i in Next(s, op).installations)
    requires var row := RowOf(s, op.id, op.login);
             !(op.action == OtherAction && op.seen.Some? && op.seen.value in s.workspaces && row.owner == op.seen
               && row.verified && !row.suspended && !row.deleted)
    ensures i in Next(s, op).installations && RowFollowsOp(s, op, i, op.login, Next(s, op).installations[i])
    ensures i in s.installations || i == op.id
  {
    hide Requested, Disconnected;
  }

  /** The state in which a positive answer asks for a new reading. */
  function Cleared(s: State, i: Id): State
    requires i in s.installations
  {
    s.(installations := s.installations[i := s.installations[i].(suspended := false, error := None)])
  }

  lemma ReportAsks(s: State, op: Op)
    requires Sound(s) && op.Report? && Clears(s, op, op.sync.installation) && op.sync.workspace.Some?
    requires s.installations[op.sync.installation].verified
    ensures Installations.Result(s, op) ==
            Committed(Requeued(Cleared(s, op.sync.installation), op.sync.installation, op.sync.workspace.value))
  {
    hide H.Sound, JobsSound, ReposSound, HandshakeSound, Requested, OneEach;
    var i := op.sync.installation;
    var t := Cleared(s, i);
    assert OneEach(t.installations) by { SameOwnersOneEach(s.installations, t.installations); }
    AskedOf(t, op.sync.workspace.value, i, Some(i), false);
  }

  lemma ReportRow(s: State, op: Op, i: Id)
    requires Sound(s) && op.Report? && i in s.installations
    ensures i in Next(s, op).installations && RowFollowsOp(s, op, i, "", Next(s, op).installations[i])
  {
    hide H.Sound, JobsSound, ReposSound, HandshakeSound, Requested, OneEach;
    var k := op.sync;
    if Clears(s, op, k.installation) && k.workspace.Some? && s.installations[k.installation].verified {
      ReportAsks(s, op);
    } else {
      ReportElse(s, op, i);
    }
  }

  lemma ReportElse(s: State, op: Op, i: Id)
    requires OwnersExist(s) && op.Report? && i in s.installations
    requires !(Clears(s, op, op.sync.installation) && op.sync.workspace.Some?
               && s.installations[op.sync.installation].verified)
    ensures i in Next(s, op).installations && RowFollowsOp(s, op, i, "", Next(s, op).installations[i])
  {
    hide Requested;
  }

  lemma BindRow(s: State, op: Op, i: Id)
    requires Sound(s) && op.Bind? && (i in s.installations || i in Next(s, op).installations)
    ensures i in Next(s, op).installations && RowFollowsOp(s, op, i, op.v.login, Next(s, op).installations[i])
    ensures i in s.installations || i == op.v.id
  {
    hide H.Sound, H.Held, JobsSound, ReposSound, HandshakeSound, OneEach, Genuine;
    assert i in s.installations ==>
      Owns(s.installations, op.a.workspace, i) == (s.installations[i].owner == Some(op.a.workspace));
  }

  lemma ApplyRow(s: State, op: Op, i: Id)
    requires Sound(s) && op.Apply? && i in s.installations
    ensures Commits(s, op) <==> Lists(s, op, op.sync.installation)
    ensures i in Next(s, op).installations && RowFollowsOp(s, op, i, "", Next(s, op).installations[i])
  {
    hide H.Sound, JobsSound, ReposSound, HandshakeSound, OneEach, Upserted, Pruned;
    SnapshotCommits(s, op.sync, op.listing);
  }

  lemma OtherRow(s: State, op: Op, i: Id)
    requires i in s.installations && !(op.Retry? || op.Nudge? || op.Event? || op.Report? || op.Bind? || op.Apply?)
    ensures i in Next(s, op).installations && RowFollowsOp(s, op, i, "", Next(s, op).installations[i])
  {
    hide H.Next, Allowed, H.Dropped;
  }

  /** What every transaction makes of every row, field by field; rows come by a binding or an event and never go. */
  lemma RowOfNext(s: State, op: Op, i: Id)
    requires Sound(s)
    ensures i in Next(s, op).installations <==> i in s.installations || (Inserts(op, i) && Commits(s, op))
    ensures i in Next(s, op).installations ==> RowFollowsOp(s, op, i, LoginOf(op), Next(s, op).installations[i])
  {
    hide Sound, RowFollowsOp;
    if op.Event? {
      hide Requested;
      if i in s.installations || i in Next(s, op).installations { EventRow(s, op, i); }
      EventKeys(s, op);
    } else if op.Bind? {
      if i in s.installations || i in Next(s, op).installations { BindRow(s, op, i); }
    } else {
      SameKeys(s, op);
      if i in s.installations {
        if op.Retry? || op.Nudge? {
          RetryRow(s, op, i);
        } else if op.Report? {
          ReportRow(s, op, i);
        } else if op.Apply? {
          ApplyRow(s, op, i);
        } else {
          OtherRow(s, op, i);
        }
        SameLogin(s, op, i, "", LoginOf(op), Next(s, op).installations[i]);
      }
    }
  }

  predicate Inserts(op: Op, i: Id) {
    (op.Event? && op.id == i) || (op.Bind? && op.v.id == i)
  }

  function LoginOf(op: Op): string {
    if op.Event? then op.login else if op.Bind? then op.v.login else ""
  }

  lemma SameLogin(s: State, op: Op, i: Id, a: string, b: string, row: Installation)
    requires i in s.installations && RowFollowsOp(s, op, i, a, row)
    ensures RowFollowsOp(s, op, i, b, row)
  {
  }

  lemma EventKeys(s: State, op: Op)
    requires op.Event?
    ensures Next(s, op).installations.Keys == s.installations.Keys + if Commits(s, op) then {op.id} else {}
  {
  }

  lemma SameKeys(s: State, op: Op)
    requires !op.Event? && !op.Bind?
    ensures Next(s, op).installations.Keys == s.installations.Keys
  {
    hide Upserted, Pruned, H.Next, Allowed, Requested;
    if op.Retry? || op.Nudge? {
      AskedKeys(s, op.workspace, if op.Retry? then None else Some(op.id), op.Retry?);
    } else if op.Report? && op.sync.installation in s.installations {
      var row := s.installations[op.sync.installation];
      if row.owner.Some? {
        AskedKeys(s.(installations :=
                     s.installations[op.sync.installation :=
                                     row.(suspended := op.suspended && row.suspended, error := None)]),
                  row.owner.value, Some(op.sync.installation), false);
      }
    }
  }

  lemma AskedKeys(s: State, w: Workspace, expected: Option<Id>, retry: bool)
    ensures Requested(s, w, expected, retry).Committed? ==>
              Requested(s, w, expected, retry).state.installations.Keys == s.installations.Keys
  {
  }

  // ----- Which transactions commit -----

  /** Some installation of the organisation may be asked about. */
  predicate Askable(s: State, w: Workspace, retry: bool) {
    exists i <- s.installations ::
      s.installations[i].owner == Some(w) && s.installations[i].verified && !s.installations[i].deleted
      && (retry || !s.installations[i].suspended)
  }

  /** Which requests, events, answers and listings commit, in terms of the rows alone. */
  lemma CommitsExactly(s: State, op: Op)
    requires Sound(s)
    ensures op.Retry? ==>
              (Commits(s, op) <==> op.workspace in s.workspaces && op.admin && Askable(s, op.workspace, true))
    ensures op.Nudge? ==>
              (Commits(s, op) <==>
               && op.workspace in s.workspaces && op.id in s.installations
               && s.installations[op.id].owner == Some(op.workspace)
               && s.installations[op.id].verified && !s.installations[op.id].deleted
               && !s.installations[op.id].suspended)
    ensures op.Event? ==> (Commits(s, op) <==> SeenRight(s, op.id, op.login, op.seen))
    ensures op.Report? ==> (Commits(s, op) <==> Answers(s, op, op.sync.installation))
    ensures op.Apply? ==> (Commits(s, op) <==> Lists(s, op, op.sync.installation))
  {
    hide H.Sound, JobsSound, ReposSound, HandshakeSound, Requested, OneEach, Upserted, Pruned;
    match op
    case Retry(w, _) => AskCommits(s, w);
    case Nudge(w, id) =>
      if id in s.installations {
        AskedOf(s, w, id, Some(id), false);
      }
      NudgeCommits(s, w, id);
    case Event(_, _, _, _) =>
      var row := RowOf(s, op.id, op.login);
      if op.action == OtherAction && op.seen.Some? && op.seen.value in s.workspaces && row.owner == op.seen
         && row.verified && !row.suspended && !row.deleted {
        EventAsks(s, op, op.id);
      }
    case Report(k, _) => ReportNeedsAwaited(s, k, op.suspended);
    case Apply(k, listing) => SnapshotCommits(s, k, listing);
    case _ =>
  }

  lemma AskCommits(s: State, w: Workspace)
    requires OneEach(s.installations)
    ensures Requested(s, w, None, true).Committed? <==> Askable(s, w, true)
  {
    if i :| Owns(s.installations, w, i) {
      AskedOf(s, w, i, None, true);
      assert forall j <- s.installations :: s.installations[j].owner == Some(w) ==> Owns(s.installations, w, j);
    }
    if j :| j in s.installations && s.installations[j].owner == Some(w) {
      assert Owns(s.installations, w, j);
    }
  }

  lemma NudgeCommits(s: State, w: Workspace, id: Id)
    ensures Requested(s, w, Some(id), false).Committed? ==>
              id in s.installations && s.installations[id].owner == Some(w)
  {
  }

  /**
   * A binding commits exactly on genuine evidence that still holds, of an installation that is free or already the
   * organisation's own, into a free slot.
   */
  lemma BindCommits(s: State, op: Op)
    requires op.Bind?
    ensures Commits(s, op) <==>
            && op.v.id == op.a.candidate && op.v.id > 0 && op.v.account > 0 && op.v.login != ""
            && (op.v.kind == "User" || op.v.kind == "Organization")
            && H.Held(s.handshake, op.a, op.admin, op.live, op.now)
            && H.Held(s.handshake, op.a, op.admin, op.live, op.later)
            && (op.v.id in s.installations ==>
                  && !s.installations[op.v.id].deleted
                  && (s.installations[op.v.id].owner.None? || s.installations[op.v.id].owner == Some(op.a.workspace)))
            && (forall i <- s.installations ::
                  i != op.v.id && s.installations[i].owner == Some(op.a.workspace) ==> s.installations[i].deleted)
  {
    hide H.Held;
  }

  /** A binding finishes the setup and the grant it was based on, and touches no other row of the handshake. */
  lemma BindFinishes(s: State, op: Op)
    requires op.Bind? && Commits(s, op)
    ensures op.a.setup.Some? && op.a.setup.value in s.handshake.setups && op.a.state in s.handshake.grants
    ensures var t, h, g := Next(s, op).handshake, op.a.setup.value, op.a.state;
            && t.setups.Keys == s.handshake.setups.Keys && t.grants.Keys == s.handshake.grants.Keys
            && t.setups[h].completed && t.grants[g].completed && t.grants[g].verifier == ""
            && (forall x <- s.handshake.setups :: x != h ==> t.setups[x] == s.handshake.setups[x])
            && (forall x <- s.handshake.grants :: x != g ==> t.grants[x] == s.handshake.grants[x])
  {
    hide Genuine;
  }

  /** Apart from bindings, steps of the handshake and the end of an organisation, nothing touches the handshake. */
  lemma HandshakeOfNext(s: State, op: Op)
    requires !op.Bind? && !op.Authorize? && !op.Abandon?
    ensures Next(s, op).handshake == s.handshake
  {
    hide Requested, Upserted, Pruned, H.Held, H.Next, Allowed, Genuine;
    match op
    case Retry(w, admin) => AskedElse(s, w, None, true);
    case Nudge(w, id) => AskedElse(s, w, Some(id), false);
    case Event(id, login, _, seen) =>
      if seen.Some? { AskedElse(s.(installations := Noted(s.installations, id, login)), seen.value, Some(id), false); }
    case Report(k, suspended) =>
      if k.installation in s.installations && s.installations[k.installation].owner.Some? {
        var row := s.installations[k.installation];
        AskedElse(s.(installations :=
                     s.installations[k.installation := row.(suspended := suspended && row.suspended, error := None)]),
                  row.owner.value, Some(k.installation), false);
      }
    case _ =>
  }

  /** The end of an organisation takes along its setups, what belongs to them, and the grants to link in it. */
  lemma AbandonHandshake(s: State, w: Workspace)
    ensures var t := Next(s, Abandon(w)).handshake;
            && (forall h :: h in t.setups <==> h in s.handshake.setups && s.handshake.setups[h].workspace != w)
            && (forall h <- t.setups :: t.setups[h] == s.handshake.setups[h])
            && (forall g <- t.grants :: g in s.handshake.grants && t.grants[g] == s.handshake.grants[g])
            && (forall g <- s.handshake.grants ::
                  g in t.grants <==>
                  && s.handshake.grants[g].link != Some(w)
                  && (s.handshake.grants[g].setup.Some? && s.handshake.grants[g].setup.value in s.handshake.setups ==>
                        s.handshake.setups[s.handshake.grants[g].setup.value].workspace != w))
  {
  }

  // ----- What else a transaction changes -----

  /** The work that a transaction queues for an installation it binds or asks about. */
  ghost predicate Queues(s: State, op: Op, i: Id) {
    Binds(s, op, i) || Requeues(s, op, i)
  }

  /**
   * One job more exactly for a binding or a request; it captures what the row says then, and asks about a suspended
   * one.
   */
  lemma JobsOfNext(s: State, op: Op)
    requires Sound(s)
    ensures forall i | Queues(s, op, i) ::
              && i in Next(s, op).installations
              && var row := Next(s, op).installations[i];
                 Next(s, op).jobs == s.jobs + [Job(if row.suspended then SyncState else SyncRepos,
                                                   Sync(i, row.owner, row.generation))]
    ensures (forall i :: !Queues(s, op, i)) ==> Next(s, op).jobs == s.jobs
  {
    hide H.Sound, JobsSound, ReposSound, HandshakeSound, Requested, OneEach, Upserted, Pruned, H.Held, H.Next, Allowed,
      Genuine;
    match op
    case Retry(w, admin) => AskJobs(s, op, w, None, true);
    case Nudge(w, id) => AskJobs(s, op, w, Some(id), false);
    case Event(_, _, _, _) =>
      var row := RowOf(s, op.id, op.login);
      if op.action == OtherAction && op.seen.Some? && op.seen.value in s.workspaces && row.owner == op.seen
         && row.verified && !row.suspended && !row.deleted {
        EventAsks(s, op, op.id);
        assert Queues(s, op, op.id);
      }
    case Report(k, _) =>
      if Clears(s, op, k.installation) && k.workspace.Some? && s.installations[k.installation].verified {
        ReportAsks(s, op);
        assert Queues(s, op, k.installation);
      } else {
        ReportSilent(s, op);
      }
    case Bind(_, v, _, _, _, _) =>
      if Commits(s, op) { assert Queues(s, op, v.id); }
    case _ =>
  }

  lemma ReportSilent(s: State, op: Op)
    requires op.Report?
    requires !(Clears(s, op, op.sync.installation) && op.sync.workspace.Some?
               && s.installations[op.sync.installation].verified)
    ensures Next(s, op).jobs == s.jobs
  {
    hide Requested;
  }

  lemma AskJobs(s: State, op: Op, w: Workspace, expected: Option<Id>, retry: bool)
    requires Sound(s) && ((op.Retry? && expected.None? && retry) || (op.Nudge? && expected == Some(op.id) && !retry))
    requires op.workspace == w
    ensures forall i | Queues(s, op, i) ::
              && i in Next(s, op).installations
              && var row := Next(s, op).installations[i];
                 Next(s, op).jobs == s.jobs + [Job(if row.suspended then SyncState else SyncRepos,
                                                   Sync(i, row.owner, row.generation))]
    ensures (forall i :: !Queues(s, op, i)) ==> Next(s, op).jobs == s.jobs
  {
    hide H.Sound, JobsSound, ReposSound, HandshakeSound, Requested, OneEach;
    forall i | Queues(s, op, i)
      ensures i in Next(s, op).installations
      ensures var row := Next(s, op).installations[i];
              Next(s, op).jobs == s.jobs + [Job(if row.suspended then SyncState else SyncRepos,
                                                Sync(i, row.owner, row.generation))]
    {
      AskedOf(s, w, i, expected, retry);
    }
    if Commits(s, op) {
      var i := OwnerOfAsked(s, w, expected, retry);
      AskedOf(s, w, i, expected, retry);
      assert Queues(s, op, i);
    }
  }

  lemma OwnerOfAsked(s: State, w: Workspace, expected: Option<Id>, retry: bool) returns (i: Id)
    requires Requested(s, w, expected, retry).Committed?
    ensures Owns(s.installations, w, i)
  {
    i :| Owns(s.installations, w, i);
  }

  /** The evidence write finds its repository connected and its binding as it was captured. */
  predicate Writes(s: State, op: Op) {
    && op.Write? && op.ref.workspace in s.workspaces
    && op.ref.installation in s.installations && op.ref.repo in s.repos
    && var row, repo := s.installations[op.ref.installation], s.repos[op.ref.repo];
       && row.owner == Some(op.ref.workspace) && row.generation == op.ref.generation
       && row.verified && !row.deleted && !row.suspended
       && repo.workspace == op.ref.workspace && repo.installation == op.ref.installation && repo.connected
  }

  lemma EvidenceOfNext(s: State, op: Op)
    ensures Next(s, op).evidence == if Writes(s, op) then s.evidence + [(op.ref, op.note)] else s.evidence
  {
    hide Requested, Upserted, Pruned, H.Held, H.Next, Allowed, Genuine;
    match op
    case Retry(w, admin) => AskedElse(s, w, None, true);
    case Nudge(w, id) => AskedElse(s, w, Some(id), false);
    case Event(id, login, _, seen) =>
      if seen.Some? { AskedElse(s.(installations := Noted(s.installations, id, login)), seen.value, Some(id), false); }
    case Report(k, suspended) =>
      if k.installation in s.installations && s.installations[k.installation].owner.Some? {
        var row := s.installations[k.installation];
        AskedElse(s.(installations :=
                     s.installations[k.installation := row.(suspended := suspended && row.suspended, error := None)]),
                  row.owner.value, Some(k.installation), false);
      }
    case _ =>
  }

  /** Asking touches rows and jobs only. */
  lemma AskedElse(s: State, w: Workspace, expected: Option<Id>, retry: bool)
    ensures Requested(s, w, expected, retry).Committed? ==>
              var t := Requested(s, w, expected, retry).state;
              t.evidence == s.evidence && t.repos == s.repos && t.workspaces == s.workspaces
              && t.handshake == s.handshake
  {
  }

  /** What may be written now is exactly what can be captured now: a capture names the generation a write would need. */
  lemma CaptureIsWritable(s: State, r: RepoId, id: Id, ref: RepoRef, note: string)
    requires Sound(s)
    ensures ActiveRepo(s, r, id) == Some(ref) <==>
            id > 0 && ref.repo == r && ref.installation == id
            && Next(s, Write(ref, note)).evidence == s.evidence + [(ref, note)]
  {
    hide H.Sound, JobsSound, HandshakeSound, OneEach, Next;
    EvidenceOfNext(s, Write(ref, note));
    assert s.evidence != s.evidence + [(ref, note)];
    if r in s.repos {
      assert RepoSound(s, s.repos[r]);
    }
  }

  /** The k-th entry is the last for its repository. */
  predicate LastFor(listing: seq<Listed>, k: nat)
    requires k < |listing|
  {
    forall j | k < j < |listing| :: listing[j].id != listing[k].id
  }

  /**
   * A listing that commits leaves each listed repository connected as its last entry says, and disconnects the
   * installation's others.
   */
  lemma ListedRepos(s: State, op: Op)
    requires Sound(s) && op.Apply? && Commits(s, op)
    ensures op.sync.workspace.Some?
    ensures forall k | 0 <= k < |op.listing| && LastFor(op.listing, k) ::
              && op.listing[k].id in Next(s, op).repos
              && Next(s, op).repos[op.listing[k].id] ==
                 Repo(op.sync.workspace.value, op.sync.installation, op.listing[k].owner, op.listing[k].name,
                      if op.listing[k].branch == "" then "main" else op.listing[k].branch, true)
    ensures forall r | r !in Ids(op.listing) ::
              && (r in Next(s, op).repos <==> r in s.repos)
              && (r in s.repos ==>
                  Next(s, op).repos[r] ==
                  if s.repos[r].workspace == op.sync.workspace.value && s.repos[r].installation == op.sync.installation
                  then s.repos[r].(connected := false) else s.repos[r])
  {
    hide Sound, Upserted, Pruned, LastEntry;
    SnapshotListing(s, op.sync, op.listing);
    forall k | 0 <= k < |op.listing| && LastFor(op.listing, k)
      ensures LastEntry(op.listing, op.listing[k].id) == op.listing[k]
    {
      LastForIsLast(op.listing, k);
    }
  }

  lemma {:induction false} LastForIsLast(listing: seq<Listed>, k: nat)
    requires k < |listing| && LastFor(listing, k)
    ensures LastEntry(listing, listing[k].id) == listing[k]
  {
    var n := |listing| - 1;
    if k < n {
      assert listing[..n][k] == listing[k];
      LastForIsLast(listing[..n], k);
    }
  }

  /**
   * Repositories change by a listing, by a deletion, which disconnects them, and with their organisation; by nothing
   * else.
   */
  lemma ReposOfNext(s: State, op: Op, r: RepoId)
    requires r in s.repos && !op.Apply?
    ensures r in Next(s, op).repos <==> op != Abandon(s.repos[r].workspace)
    ensures r in Next(s, op).repos ==>
              Next(s, op).repos[r] == if Deletes(s, op, s.repos[r].installation) then s.repos[r].(connected := false)
                                      else s.repos[r]
  {
    hide Requested, Upserted, Pruned, H.Held, H.Next, Allowed, Genuine;
    match op
    case Retry(w, admin) => AskedElse(s, w, None, true);
    case Nudge(w, id) => AskedElse(s, w, Some(id), false);
    case Event(id, login, _, seen) =>
      if seen.Some? { AskedElse(s.(installations := Noted(s.installations, id, login)), seen.value, Some(id), false); }
    case Report(k, suspended) =>
      if k.installation in s.installations && s.installations[k.installation].owner.Some? {
        var row := s.installations[k.installation];
        AskedElse(s.(installations :=
                     s.installations[k.installation := row.(suspended := suspended && row.suspended, error := None)]),
                  row.owner.value, Some(k.installation), false);
      }
    case _ =>
  }

  // ----- Suspension over whole runs -----

  /** No answer that lifts the suspension of the installation commits in the run. */
  ghost predicate Unlifted(s: State, ops: seq<Op>, i: Id)
  {
    forall k | 0 <= k < |ops| :: !Clears(Run(s, ops[..k]), ops[k], i)
  }

  /** A reported suspension, or end of one, leaves the installation suspended until the provider has answered. */
  lemma SuspensionBegins(s: State, op: Op, i: Id)
    requires Sound(s) && Suspends(s, op, i)
    ensures i in Next(s, op).installations && Next(s, op).installations[i].suspended
  {
    hide Sound, Next;
    CommitsExactly(s, op);
    RowOfNext(s, op, i);
  }

  /** Nothing captured for the installation takes effect, and no event or scheduled reading asks about it. */
  ghost predicate Still(s: State, i: Id) {
    && i in s.installations && s.installations[i].suspended
    && (forall k: Sync :: k.installation == i ==> !Current(s, k))
    && (forall op: Op :: (op.Apply? && op.sync.installation == i) || (op.Nudge? && op.id == i) ==> !Commits(s, op))
    && (forall op: Op :: op.Write? && op.ref.installation == i ==> Next(s, op).evidence == s.evidence)
  }

  lemma SuspendedIsStill(s: State, i: Id)
    requires Sound(s) && i in s.installations && s.installations[i].suspended
    ensures Still(s, i)
  {
    hide Sound, Next, Commits;
    forall op: Op | (op.Apply? && op.sync.installation == i) || (op.Nudge? && op.id == i) ensures !Commits(s, op) {
      CommitsExactly(s, op);
    }
    forall op: Op | op.Write? && op.ref.installation == i ensures Next(s, op).evidence == s.evidence {
      EvidenceOfNext(s, op);
    }
  }

  /** All work queued for it in the run only asks the provider whether it is still suspended. */
  ghost predicate OnlyAsks(s: State, t: State, i: Id) {
    && s.jobs <= t.jobs
    && forall k | |s.jobs| <= k < |t.jobs| :: t.jobs[k].sync.installation == i ==> t.jobs[k].kind == SyncState
  }

  /**
   * From a reported suspension until an answer lifts it, whatever else happens: the installation stays suspended, no
   * listing, evidence write or event for it takes effect, and all work queued for it asks about the suspension.
   */
  lemma {:induction false} SuspensionHolds(s: State, ops: seq<Op>, i: Id)
    requires Sound(s) && i in s.installations && s.installations[i].suspended && Unlifted(s, ops, i)
    ensures Sound(Run(s, ops)) && Still(Run(s, ops), i) && OnlyAsks(s, Run(s, ops), i)
  {
    hide Sound, Next, Clears;
    if ops == [] {
      SuspendedIsStill(s, i);
    } else {
      hide Still, OnlyAsks;
      var prior, op := ops[..|ops| - 1], ops[|ops| - 1];
      assert forall k | 0 <= k < |prior| :: prior[..k] == ops[..k];
      SuspensionHolds(s, prior, i);
      StillRow(Run(s, prior), i);
      assert !Clears(Run(s, prior), op, i);
      StepSound(Run(s, prior), op);
      RowOfNext(Run(s, prior), op, i);
      StaysSuspended(Run(s, prior), op, i);
      SuspendedIsStill(Run(s, ops), i);
      SuspendedJobs(Run(s, prior), op, i);
      OnlyAsksTrans(s, Run(s, prior), Run(s, ops), i);
    }
  }

  lemma StillRow(s: State, i: Id)
    requires Still(s, i)
    ensures i in s.installations && s.installations[i].suspended
  {
  }

  lemma StaysSuspended(s: State, op: Op, i: Id)
    requires i in s.installations && s.installations[i].suspended && !Clears(s, op, i)
    requires i in Next(s, op).installations && RowFollowsOp(s, op, i, LoginOf(op), Next(s, op).installations[i])
    ensures Next(s, op).installations[i].suspended
  {
    hide Next, Clears;
  }

  lemma SuspendedJobs(s: State, op: Op, i: Id)
    requires Sound(s) && i in s.installations && s.installations[i].suspended && !Clears(s, op, i)
    requires i in Next(s, op).installations && Next(s, op).installations[i].suspended
    ensures OnlyAsks(s, Next(s, op), i)
  {
    hide Sound, Next, Queues;
    JobsOfNext(s, op);
    if j :| Queues(s, op, j) {
    }
  }

  lemma OnlyAsksTrans(s: State, t: State, u: State, i: Id)
    requires OnlyAsks(s, t, i) && OnlyAsks(t, u, i)
    ensures OnlyAsks(s, u, i)
  {
  }

  /**
   * An installation is suspended at the end of a run exactly if it was suspended, at first or since, and no answer
   * lifted that since.
   */
  lemma {:induction false} SuspendedExactly(s: State, ops: seq<Op>, i: Id)
    requires Sound(s)
    ensures i in Run(s, ops).installations && Run(s, ops).installations[i].suspended <==> Suspended(s, ops, i)
  {
    hide Sound, Next, Clears, Suspends;
    if ops != [] {
      var prior, op := ops[..|ops| - 1], ops[|ops| - 1];
      var t := Run(s, prior);
      SuspendedExactly(s, prior, i);
      RunSound(s, prior);
      RowOfNext(t, op, i);
      SuspendsInserts(t, op, i);
    }
  }

  lemma SuspendsInserts(s: State, op: Op, i: Id)
    requires Sound(s)
    ensures Suspends(s, op, i) ==> i in Next(s, op).installations
    ensures Clears(s, op, i) ==> i in s.installations
  {
    hide Sound, Next;
    if op.Event? {
      CommitsExactly(s, op);
      RowOfNext(s, op, i);
    }
  }

  /** The last word of the provider on the installation was a suspension. */
  ghost predicate Suspended(s: State, ops: seq<Op>, i: Id) {
    if ops == [] then i in s.installations && s.installations[i].suspended
    else
      var prior, op := ops[..|ops| - 1], ops[|ops| - 1];
      Suspends(Run(s, prior), op, i) || (Suspended(s, prior, i) && !Clears(Run(s, prior), op, i))
  }
}
