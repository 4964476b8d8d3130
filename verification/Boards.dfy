/**
 * The milestones on the screen and the sprint they belong to. Giving up a sprint does not retire the request
 * for its milestones; this module says exactly when that matters.
 */
module Boards {
  import opened Bytes
  import opened Desktop

  /** Requests whose reply may fill the board. */
  predicate AsksBoard(r: Request) {
    r.Sprints? || r.Milestones?
  }

  /** Milestones are asked for and their reply would be accepted. */
  ghost predicate Asked(s: State) {
    exists k <- s.pending :: s.pending[k].Milestones? && Current(s, s.pending[k])
  }

  /** No captured revision is ahead, and at most one question about the board is current. */
  ghost predicate OneAsker(s: State) {
    && (forall k <- s.pending :: k < s.sent)
    && (forall k <- s.pending ::
        AsksBoard(s.pending[k]) ==> s.pending[k].session <= s.session && s.pending[k].sprints <= s.sprints)
    && (forall j, k :: j in s.pending && k in s.pending && Asks(s, s.pending[j]) && Asks(s, s.pending[k]) ==> j == k)
  }

  predicate Asks(s: State, r: Request) {
    AsksBoard(r) && Current(s, r)
  }

  /** With no sprint selected the board is empty, and nothing under way would fill it. */
  ghost predicate Settled(s: State) {
    s.sprint.None? ==> s.board == [] && !Asked(s)
  }

  /** Giving up a sprint is harmless while no current question about milestones is under way. */
  ghost predicate Careful(s: State, e: Event) {
    e == OnSelectSprint(None) ==> !Asked(s)
  }

  /** What keeps both: neither the board nor its counter moves, and no question about it is added. */
  ghost predicate Unmoved(s: State, t: State) {
    && s.session <= t.session && s.sprints == t.sprints && s.sent <= t.sent && s.sprint == t.sprint
    && s.board == t.board
    && (forall k <- t.pending :: k < t.sent)
    && (forall k <- t.pending :: AsksBoard(t.pending[k]) ==> k in s.pending && t.pending[k] == s.pending[k])
  }

  /** The invariants pass from s to t. */
  ghost predicate Keeps(s: State, t: State) {
    && (OneAsker(s) ==> OneAsker(t))
    && (OneAsker(s) && Settled(s) ==> Settled(t))
  }

  lemma UnmovedKeeps(s: State, t: State)
    requires Unmoved(s, t)
    ensures Keeps(s, t)
  {
    if OneAsker(s) {
      forall k <- t.pending | Asks(t, t.pending[k])
        ensures k in s.pending && t.pending[k] == s.pending[k] && Asks(s, s.pending[k])
      {
        assert AsksBoard(t.pending[k]);
      }
    }
  }

  lemma UnmovedTrans(s: State, t: State, u: State)
    requires Unmoved(s, t) && Unmoved(t, u)
    ensures Unmoved(s, u)
  {
  }

  /** Another question leaves the board alone. */
  lemma SentUnmoved(s: State, t: State, r: Request)
    requires OneAsker(s) && s.session <= t.session && s.sprints == t.sprints && s.sprint == t.sprint
             && s.board == t.board
    requires t.pending == s.pending && t.sent == s.sent
    ensures Unmoved(s, t) && (!AsksBoard(r) ==> Unmoved(s, Send(t, r)))
  {
  }

  lemma KeepsTrans(s: State, t: State, u: State)
    requires Keeps(s, t) && Keeps(t, u)
    ensures Keeps(s, u)
  {
  }

  // ----- Actions that leave the board alone -----

  lemma SelectUnmoved(s: State, index: nat)
    requires OneAsker(s)
    ensures Unmoved(s, SelectIssue(s, index))
  {
    hide OneAsker, Unmoved;
    SentUnmoved(s, s, Revoke);
    if index < |s.issues| && Slugged(s).Some? {
      SentUnmoved(s, s.(selected := Some(s.issues[index]), comments := [], detail := s.detail + 1,
                        detailLoading := true),
                  Detail(s.session, s.detail + 1, Slugged(s).value, s.issues[index].key));
    }
  }

  lemma UnmovedOneAsker(s: State, t: State)
    requires OneAsker(s) && Unmoved(s, t)
    ensures OneAsker(t)
  {
    UnmovedKeeps(s, t);
  }

  lemma OpenIssueUnmoved(s: State, issue: Issue)
    requires OneAsker(s)
    ensures Unmoved(s, OpenIssue(s, issue))
  {
    hide OneAsker, Unmoved, SelectIssue, IndexOf;
    var t := s.(sprintsView := false);
    var u := t.(issues := s.issues + [issue]);
    SentUnmoved(s, s, Revoke);
    SentUnmoved(s, t, Revoke);
    SentUnmoved(s, u, Revoke);
    UnmovedOneAsker(s, t);
    UnmovedOneAsker(s, u);
    match IndexOf(s.issues, issue.id)
    case Some(k) => SelectUnmoved(t, k); UnmovedTrans(s, t, SelectIssue(t, k));
    case None => SelectUnmoved(u, |s.issues|); UnmovedTrans(s, u, SelectIssue(u, |s.issues|));
  }

  lemma OpenIssueKeyUnmoved(s: State, key: Key)
    requires OneAsker(s)
    ensures Unmoved(s, OpenIssueKey(s, key))
  {
    hide OneAsker, Unmoved, OpenIssue, Send;
    if exists k | 0 <= k < |s.issues| :: s.issues[k].key == key {
      OpenIssueUnmoved(s, FirstWithKey(s.issues, key));
    } else {
      SentUnmoved(s, s, Lookup(s.session, if Slugged(s).Some? then Slugged(s).value else "", key));
    }
  }

  lemma SavedUnmoved(s: State, issue: Issue)
    requires OneAsker(s)
    ensures Unmoved(s, Saved(s, issue))
  {
    hide OneAsker, Unmoved, SelectIssue, IndexOf, Replaced;
    var rows := if IndexOf(s.issues, issue.id).Some? then Replaced(s.issues, issue) else [issue] + s.issues;
    var t := s.(issues := rows, selected := Some(issue), detail := s.detail + 1, comments := [], detailLoading := false,
                editing := false);
    SentUnmoved(s, t, Revoke);
    UnmovedOneAsker(s, t);
    match IndexOf(rows, issue.id)
    case Some(k) => SelectUnmoved(t, k); UnmovedTrans(s, t, SelectIssue(t, k));
    case None =>
  }

  lemma FormsUnmoved(s: State, edit: bool, overlay: bool, ok: bool)
    requires OneAsker(s)
    ensures Unmoved(s, OpenForm(s, edit, overlay)) && Unmoved(s, CloseForm(s))
    ensures Unmoved(s, SignIn(s, ok)) && Unmoved(s, CancelLogin(s))
  {
    hide OneAsker, Unmoved, Send;
    SentUnmoved(s, s, Revoke);
    SentUnmoved(s, OpenForm(s, edit, overlay), Revoke);
    SentUnmoved(s, CloseForm(s), Revoke);
    SentUnmoved(s, s.(loading := true, session := s.session + 1), Login(s.session + 1));
    SentUnmoved(s, CancelLogin(s), Revoke);
  }

  lemma WritesUnmoved(s: State, titled: bool, overlay: bool, blank: bool)
    requires OneAsker(s)
    ensures Unmoved(s, SaveIssue(s, titled)) && Unmoved(s, PostUpdate(s, overlay, blank))
    ensures Unmoved(s, MutateIssue(s, overlay)) && Unmoved(s, LogOut(s))
  {
    hide OneAsker, Unmoved, Send;
    SentUnmoved(s, s, Revoke);
    forall r: Request | !AsksBoard(r) ensures Unmoved(s, Write(s, r)) {
      SentUnmoved(s, s.(list := s.list + 1, loading := false, saving := true), r);
    }
  }

  lemma ToggleUnmoved(s: State, id: string)
    requires OneAsker(s)
    ensures Unmoved(s, ToggleMilestone(s, id))
  {
    hide OneAsker, Unmoved, Send;
    var t := s.(milestones := s.milestones + 1, milestoneIssues := None);
    var r := MilestoneIssues(t.session, t.milestones, if Slugged(s).Some? then Slugged(s).value else "", id);
    SentUnmoved(s, t.(milestone := None), r);
    SentUnmoved(s, t.(milestone := Some(id)), r);
  }

  // ----- Actions that touch it -----

  /** A new question retires those before it; it asks for milestones only with a sprint selected. */
  lemma AskKeeps(s: State, t: State, r: Request)
    requires t.session == s.session && t.sprints > s.sprints && t.pending == s.pending && t.sent == s.sent
    requires AsksBoard(r) && r.session == t.session && r.sprints == t.sprints
    requires t.sprint.None? ==> r.Sprints? && s.sprint.None? && t.board == s.board
    ensures Keeps(s, Send(t, r))
  {
    hide AsksBoard;
    if OneAsker(s) {
      var u := Send(t, r);
      assert u.pending[s.sent] == r;
      forall k <- s.pending
        ensures u.pending[k] == s.pending[k] && !Asks(u, s.pending[k])
        ensures s.pending[k].Milestones? ==> !Current(u, s.pending[k])
      {
        Retired(s, u, s.pending[k]);
      }
    }
  }

  lemma Retired(s: State, t: State, r: Request)
    requires AsksBoard(r) ==> r.sprints <= s.sprints < t.sprints
    ensures !Asks(t, r) && (r.Milestones? ==> !Current(t, r))
  {
  }

  lemma LoadSprintsKeeps(s: State)
    ensures Keeps(s, LoadSprints(s))
  {
    hide Keeps;
    ElsewhereKeeps(s, s);
    if Slugged(s).Some? {
      AskKeeps(s, s.(sprints := s.sprints + 1), Sprints(s.session, s.sprints + 1, Slugged(s).value));
    }
  }

  lemma RefreshKeeps(s: State, more: bool)
    ensures Keeps(s, Refresh(s, more))
  {
    hide OneAsker, Settled, Unmoved, LoadSprints;
    if OneAsker(s) && !s.saving && Slugged(s).Some? {
      LoadSprintsKeeps(s);
      var t := if s.sprintsView && !more then LoadSprints(s) else s;
      SentUnmoved(t, t.(list := t.list + 1, loading := true), List(t.session, t.list + 1, Slugged(s).value, more));
      UnmovedKeeps(t, Refresh(s, more));
    }
  }

  lemma EmptiedKeeps(s: State)
    ensures Keeps(s, Emptied(s))
  {
  }

  /** Fields the board does not depend on. */
  lemma ElsewhereKeeps(s: State, t: State)
    requires t.session == s.session && t.sprints == s.sprints && t.sprint == s.sprint && t.board == s.board
    requires t.pending == s.pending && t.sent == s.sent
    ensures Keeps(s, t)
  {
    if OneAsker(s) {
      UnmovedKeeps(s, t);
    }
  }

  lemma SwitchKeeps(s: State, index: nat)
    ensures Keeps(s, SwitchWorkspace(s, index))
  {
    hide Keeps, Emptied, Refresh;
    ElsewhereKeeps(s, s);
    var t := s.(workspace := index);
    ElsewhereKeeps(s, t);
    EmptiedKeeps(t);
    KeepsTrans(s, t, Emptied(t));
    RefreshKeeps(Emptied(t), false);
    KeepsTrans(s, Emptied(t), Refresh(Emptied(t), false));
  }

  lemma SignedOutKeeps(s: State)
    ensures Keeps(s, SignedOut(s))
  {
    hide Keeps, Emptied;
    EmptiedKeeps(s);
    ElsewhereKeeps(Emptied(s), SignedOut(s));
    KeepsTrans(s, Emptied(s), SignedOut(s));
  }

  lemma ShowSprintsKeeps(s: State, none: bool)
    ensures Keeps(s, ShowSprints(s, none))
  {
    hide Keeps, LoadSprints;
    var t := s.(sprintsView := true);
    ElsewhereKeeps(s, t);
    LoadSprintsKeeps(t);
    KeepsTrans(s, t, LoadSprints(t));
  }

  lemma ChooseKeeps(s: State, id: string)
    ensures Keeps(s, SelectSprint(s, Some(id)))
  {
    hide OneAsker, Asked;
    var t := s.(milestones := s.milestones + 1, milestone := None, milestoneIssues := None, sprint := Some(id),
                board := []);
    if Slugged(s).Some? {
      AskKeeps(s, t.(sprints := t.sprints + 1), Milestones(t.session, t.sprints + 1, Slugged(s).value, id));
    } else if OneAsker(s) {
      SameAskers(s, t);
    }
  }

  lemma SameAskers(s: State, t: State)
    requires OneAsker(s) && t.session == s.session && t.sprints == s.sprints && t.pending == s.pending
             && t.sent == s.sent
    ensures OneAsker(t) && (Asked(t) <==> Asked(s))
  {
    hide AsksBoard;
    forall r: Request | r in s.pending.Values
      ensures (Asks(t, r) <==> Asks(s, r)) && (r.Milestones? ==> Current(t, r) == Current(s, r))
    {
      SameAsker(s, t, r);
    }
    assert forall k <- s.pending :: s.pending[k] in s.pending.Values;
  }

  lemma SameAsker(s: State, t: State, r: Request)
    requires t.session == s.session && t.sprints == s.sprints
    ensures (Asks(t, r) <==> Asks(s, r)) && (r.Milestones? ==> Current(t, r) == Current(s, r))
  {
  }

  /** Giving up a sprint empties the board, and leaves what was asked. */
  lemma GiveUpKeepsAsked(s: State)
    requires OneAsker(s)
    ensures var t := SelectSprint(s, None);
            OneAsker(t) && t.sprint.None? && t.board == [] && (Asked(t) <==> Asked(s))
  {
    hide OneAsker, Asked;
    SameAskers(s, SelectSprint(s, None));
  }

  /** Every action keeps both invariants, except giving up a sprint whose milestones are asked for. */
  lemma ActionSettles(s: State, e: Event)
    requires OneAsker(s) && Enabled(s, e) && !e.OnReply?
    ensures OneAsker(Next(s, e))
    ensures Settled(s) ==> (Settled(Next(s, e)) <==> Careful(s, e))
  {
    hide OneAsker, Settled, Unmoved, Asked, SignIn, CancelLogin, Refresh, SelectIssue, OpenIssue, OpenIssueKey,
      SwitchWorkspace, OpenForm, CloseForm, SaveIssue, PostUpdate, MutateIssue, LogOut, ShowSprints, SelectSprint,
      ToggleMilestone, Arrive;
    if e == OnSelectSprint(None) {
      GiveUpKeepsAsked(s);
      SettledWithout(SelectSprint(s, None));
    } else if e.OnRefresh? {
      RefreshKeeps(s, e.more);
    } else if e.OnSwitch? {
      SwitchKeeps(s, e.index);
    } else if e.OnShowSprints? {
      ShowSprintsKeeps(s, e.none);
    } else if e.OnSelectSprint? {
      ChooseKeeps(s, e.id.value);
    } else {
      ActionUnmoved(s, e);
      UnmovedKeeps(s, Next(s, e));
    }
  }

  lemma SettledWithout(s: State)
    requires s.sprint.None? && s.board == []
    ensures Settled(s) <==> !Asked(s)
  {
  }

  lemma ActionUnmoved(s: State, e: Event)
    requires OneAsker(s) && Enabled(s, e)
    requires !(e.OnReply? || e.OnRefresh? || e.OnSwitch? || e.OnShowSprints? || e.OnSelectSprint?)
    ensures Unmoved(s, Next(s, e))
  {
    hide OneAsker, Unmoved, SignIn, CancelLogin, Refresh, SelectIssue, OpenIssue, OpenIssueKey, SwitchWorkspace,
      OpenForm, CloseForm, SaveIssue, PostUpdate, MutateIssue, LogOut, ShowSprints, SelectSprint, ToggleMilestone,
      Arrive;
    match e
    case OnSignIn(ok) => FormsUnmoved(s, false, false, ok);
    case OnCancelLogin => FormsUnmoved(s, false, false, false);
    case OnSelect(index) => SelectUnmoved(s, index);
    case OnOpenIssue(issue) => OpenIssueUnmoved(s, issue);
    case OnOpenKey(key) => OpenIssueKeyUnmoved(s, key);
    case OnOpenForm(edit, overlay) => FormsUnmoved(s, edit, overlay, false);
    case OnCloseForm => FormsUnmoved(s, false, false, false);
    case OnSave(titled) => WritesUnmoved(s, titled, false, false);
    case OnPost(overlay, blank) => WritesUnmoved(s, false, overlay, blank);
    case OnMutate(overlay) => WritesUnmoved(s, false, overlay, false);
    case OnLogOut => WritesUnmoved(s, false, false, false);
    case OnToggleMilestone(chosen) => ToggleUnmoved(s, chosen);
  }

  // ----- Replies -----

  /** A request that has been answered is gone, and with it the question it asked. */
  lemma RemovedUnmoved(s: State, k: nat)
    requires OneAsker(s) && k in s.pending
    ensures var t := s.(pending := s.pending - {k});
            Unmoved(s, t) && OneAsker(t) && (Asks(s, s.pending[k]) ==> !Asked(t))
  {
    var t := s.(pending := s.pending - {k});
    UnmovedKeeps(s, t);
    forall j <- t.pending | t.pending[j].Milestones? && Current(t, t.pending[j]) ensures Asks(s, s.pending[j]) {
    }
  }

  lemma SignInReplyKeeps(s: State, r: Request, a: Reply)
    requires OneAsker(s) && Honest(r, a) && (r.Restore? || r.Login? || r.Poll? || r.Persist?)
    ensures Keeps(s, Accepted(s, r, a))
  {
    hide OneAsker, Settled, Unmoved, Refresh;
    var t := s.(loading := false, saving := s.saving && !r.Persist?);
    ElsewhereKeeps(s, t);
    forall x: State, y: Request | (x == s || x == s.(saving := true)) && !AsksBoard(y) ensures Keeps(s, Send(x, y)) {
      SentUnmoved(s, x, y);
      UnmovedKeeps(s, Send(x, y));
    }
    if a.Identified? && a.memberships.Some? {
      var u := t.(identity := a.memberships);
      ElsewhereKeeps(s, u);
      RefreshKeeps(u, false);
    }
  }

  /** These touch other fields only. */
  lemma ShowReplyKeeps(s: State, r: Request, a: Reply)
    requires Honest(r, a) && (r.List? || r.Detail? || r.MilestoneIssues? || r.Post? || r.Mutate?)
    ensures Keeps(s, Accepted(s, r, a))
  {
    hide Keeps, Extended, Replaced, Honest, OpenIssue, SelectSprint, Saved, SignedOut, Refresh;
    ElsewhereKeeps(s, Accepted(s, r, a));
  }

  /** These open an issue or forget everything. */
  lemma OpenReplyKeeps(s: State, r: Request, a: Reply)
    requires OneAsker(s) && Honest(r, a) && (r.Lookup? || r.Save? || r.Revoke?)
    ensures Keeps(s, Accepted(s, r, a))
  {
    hide OneAsker, Unmoved, Keeps, OpenIssue, Saved, SignedOut;
    var t := s.(saving := false);
    ElsewhereKeeps(s, s);
    ElsewhereKeeps(s, t);
    if a != Failed {
      match r
      case Lookup(_, _, _) =>
        OpenIssueUnmoved(s, a.issue);
        UnmovedKeeps(s, OpenIssue(s, a.issue));
      case Save(_, _, _) =>
        SentUnmoved(s, t, Revoke);
        UnmovedOneAsker(s, t);
        SavedUnmoved(t, a.issue);
        UnmovedKeeps(t, Saved(t, a.issue));
        KeepsTrans(s, t, Saved(t, a.issue));
      case Revoke =>
        SignedOutKeeps(t);
        KeepsTrans(s, t, SignedOut(t));
    }
  }

  /** A default sprint answers the one question there was; milestones come for the sprint that is selected. */
  lemma BoardReplySettles(s: State, k: nat, a: Reply)
    requires OneAsker(s) && k in s.pending && Honest(s.pending[k], a) && Asks(s, s.pending[k])
    ensures OneAsker(Arrive(s, k, a)) && (Settled(s) ==> Settled(Arrive(s, k, a)))
  {
    hide OneAsker, Unmoved, SelectSprint, Refresh;
    var t := s.(pending := s.pending - {k});
    RemovedUnmoved(s, k);
    UnmovedKeeps(s, t);
    if s.pending[k].Sprints? && a.DefaultSprint? {
      match a.choice
      case None => GiveUpKeepsAsked(t);
      case Some(id) => ChooseKeeps(t, id);
    } else if a.MilestonesOf? {
      SameAskers(t, t.(board := a.milestones));
      assert Asked(s);
    }
  }

  lemma ReplySettles(s: State, k: nat, a: Reply)
    requires OneAsker(s) && k in s.pending && Honest(s.pending[k], a)
    ensures OneAsker(Arrive(s, k, a)) && (Settled(s) ==> Settled(Arrive(s, k, a)))
  {
    hide OneAsker, Settled, Unmoved, Accepted, Honest, Current;
    var r := s.pending[k];
    var t := s.(pending := s.pending - {k});
    RemovedUnmoved(s, k);
    UnmovedKeeps(s, t);
    if Current(s, r) {
      if r.Restore? || r.Login? || r.Poll? || r.Persist? {
        SignInReplyKeeps(t, r, a);
      } else if AsksBoard(r) {
        BoardReplySettles(s, k, a);
      } else if r.Lookup? || r.Save? || r.Revoke? {
        OpenReplyKeeps(t, r, a);
      } else {
        ShowReplyKeeps(t, r, a);
      }
    }
  }

  /** In one step the invariant is lost exactly by giving up a sprint whose milestones are asked for. */
  lemma StepSettles(s: State, e: Event)
    requires OneAsker(s) && Enabled(s, e)
    ensures OneAsker(Next(s, e))
    ensures Settled(s) ==> (Settled(Next(s, e)) <==> Careful(s, e))
  {
    hide OneAsker, Settled, Asked, Arrive, Honest;
    match e
    case OnReply(k, a) => ReplySettles(s, k, a);
    case _ => ActionSettles(s, e);
  }

  // ----- Runs -----

  ghost predicate AllCareful(s: State, es: seq<Event>)
    requires Legal(s, es)
  {
    es == [] || (AllCareful(s, es[..|es| - 1]) && Careful(Run(s, es[..|es| - 1]), es[|es| - 1]))
  }

  lemma {:induction false} RunSettles(s: State, es: seq<Event>)
    requires OneAsker(s) && Legal(s, es)
    ensures OneAsker(Run(s, es))
    ensures Settled(s) && AllCareful(s, es) ==> Settled(Run(s, es))
  {
    hide OneAsker, Settled, Careful, Enabled, Next;
    if es != [] {
      RunSettles(s, es[..|es| - 1]);
      StepSettles(Run(s, es[..|es| - 1]), es[|es| - 1]);
    }
  }

  lemma OpenedSettled()
    ensures OneAsker(OPENED) && Settled(OPENED)
  {
  }

  /** In every reachable state at most one current question about the board is under way. */
  lemma ReachableOneAsker(es: seq<Event>)
    requires Legal(OPENED, es)
    ensures OneAsker(Run(OPENED, es))
  {
    hide OneAsker, Run, Legal;
    OpenedSettled();
    RunSettles(OPENED, es);
  }

  /** Unless a sprint is ever given up while its milestones are asked for, no milestones are shown without a sprint. */
  lemma NoSprintNoMilestones(es: seq<Event>)
    requires Legal(OPENED, es) && AllCareful(OPENED, es)
    ensures Run(OPENED, es).sprint.None? ==> Run(OPENED, es).board == []
  {
    hide OneAsker, Run, Legal, Asked;
    OpenedSettled();
    RunSettles(OPENED, es);
  }

  /**
   * Milestones are left on the screen by the next reply, for some reply, exactly if they were asked for when the sprint
   * was given up.
   */
  lemma GivingUpExactly(s: State)
    requires OneAsker(s)
    ensures var t := SelectSprint(s, None);
            (exists k, a ::
               k in t.pending && Honest(t.pending[k], a) && Arrive(t, k, a).sprint.None? && Arrive(t, k, a).board != [])
            <==> Asked(s)
  {
    hide OneAsker, Arrive, Honest;
    var t := SelectSprint(s, None);
    GiveUpKeepsAsked(s);
    if Asked(t) {
      var k :| k in t.pending && t.pending[k].Milestones? && Current(t, t.pending[k]);
      MilestonesArrive(t, k);
    }
    forall k, a | !Asked(t) && k in t.pending && Honest(t.pending[k], a)
      ensures Arrive(t, k, a).sprint.None? ==> Arrive(t, k, a).board == []
    {
      ReplySettles(t, k, a);
    }
  }

  lemma MilestonesArrive(s: State, k: nat)
    requires k in s.pending && s.pending[k].Milestones? && Current(s, s.pending[k])
    ensures var a := MilestonesOf([Milestone("", s.pending[k].sprint)]);
            Honest(s.pending[k], a) && Arrive(s, k, a) == s.(pending := s.pending - {k}, board := a.milestones)
  {
  }

  /**
   * Some careful run after giving up a sprint shows milestones without one exactly if they were asked for when it was
   * given up.
   */
  lemma GivingUpOverRuns(s: State)
    requires OneAsker(s)
    ensures var t := SelectSprint(s, None);
            (exists es :: Legal(t, es) && AllCareful(t, es) && Run(t, es).sprint.None? && Run(t, es).board != []) <==>
              Asked(s)
  {
    hide OneAsker, Arrive, Honest, Asked;
    var t := SelectSprint(s, None);
    GiveUpKeepsAsked(s);
    SettledWithout(t);
    if Asked(t) {
      StrayRun(t);
    }
    forall es | !Asked(t) && Legal(t, es) && AllCareful(t, es)
      ensures Run(t, es).sprint.None? ==> Run(t, es).board == []
    {
      RunSettles(t, es);
    }
  }

  lemma StrayRun(s: State)
    requires Asked(s) && s.sprint.None?
    ensures exists es :: Legal(s, es) && AllCareful(s, es) && Run(s, es).sprint.None? && Run(s, es).board != []
  {
    hide Arrive, Honest;
    var k :| k in s.pending && s.pending[k].Milestones? && Current(s, s.pending[k]);
    MilestonesArrive(s, k);
    var e := OnReply(k, MilestonesOf([Milestone("", s.pending[k].sprint)]));
    var es := [e];
    assert es[..0] == [];
    assert Legal(s, []) && AllCareful(s, []) && Run(s, []) == s;
    assert Legal(s, es) && Run(s, es) == Next(s, e);
    assert AllCareful(s, es);
  }
}
