/**
 * The window object of the desktop client. Its fields are held in one record that the handlers update
 * step by step, and each handler is proved against the state machine.
 */
module Window {
  import opened Bytes
  import opened Desktop

  class Velvet {
    var view: State

    constructor ()
      ensures view == OPENED
    {
      view := State(None, 0, 1, 0, 0, 0, 0, true, false, false, false, None, false, [], None, None, [], None, [], None,
                    None,
                    map[0 := Restore(1)], 1);
    }

    method Spawn(r: Request)
      modifies this
      ensures view == Send(old(view), r)
    {
      view := view.(pending := view.pending[view.sent := r], sent := view.sent + 1);
    }

    method SignIn(serverOk: bool)
      modifies this
      ensures view == BeginLogin(old(view), serverOk)
    {
      if view.loading || !serverOk {
        return;
      }
      view := view.(loading := true);
      view := view.(session := view.session + 1);
      Spawn(Login(view.session));
    }

    method LoadSprints()
      modifies this
      ensures view == Desktop.LoadSprints(old(view))
    {
      var slug := Slugged(view);
      if slug.None? {
        return;
      }
      view := view.(sprints := view.sprints + 1);
      Spawn(Sprints(view.session, view.sprints, slug.value));
    }

    method Refresh(more: bool)
      modifies this
      ensures view == Desktop.Refresh(old(view), more)
    {
      if view.saving {
        return;
      }
      var slug := Slugged(view);
      if slug.None? {
        return;
      }
      if view.sprintsView && !more {
        LoadSprints();
      }
      view := view.(list := view.list + 1);
      view := view.(loading := true);
      Spawn(List(view.session, view.list, slug.value, more));
    }

    method SelectIssue(index: nat)
      modifies this
      ensures view == Desktop.SelectIssue(old(view), index)
    {
      if index >= |view.issues| || view.saving {
        return;
      }
      var slug := Slugged(view);
      if slug.None? {
        return;
      }
      var issue := view.issues[index];
      view := view.(selected := Some(issue), comments := []);
      view := view.(detail := view.detail + 1);
      view := view.(detailLoading := true);
      Spawn(Detail(view.session, view.detail, slug.value, issue.key));
    }

    /** The position of the first row with the id, if there is one. */
    static method Position(issues: seq<Issue>, id: string) returns (r: Option<nat>)
      ensures r == IndexOf(issues, id)
    {
      for k := 0 to |issues|
        invariant IndexOf(issues, id) ==
                  match IndexOf(issues[k..], id) case None => None case Some(n) => Some(k + n)
      {
        if issues[k].id == id {
          return Some(k);
        }
        assert issues[k..][1..] == issues[k + 1..];
      }
      return None;
    }

    method OpenIssue(issue: Issue)
      modifies this
      ensures view == Desktop.OpenIssue(old(view), issue)
    {
      hide Desktop.SelectIssue;
      if view.saving {
        return;
      }
      view := view.(sprintsView := false);
      var found := Position(view.issues, issue.id);
      if found.Some? {
        SelectIssue(found.value);
      } else {
        view := view.(issues := view.issues + [issue]);
        SelectIssue(|view.issues| - 1);
      }
    }

    method ResetSprints()
      modifies this
      ensures view == ClearSprints(old(view))
    {
      view := view.(sprints := view.sprints + 1);
      view := view.(milestones := view.milestones + 1);
      view := view.(sprint := None, board := [], milestone := None, milestoneIssues := None);
    }

    method SwitchWorkspace(index: nat)
      modifies this
      ensures view == Desktop.SwitchWorkspace(old(view), index)
    {
      hide Desktop.Refresh;
      if view.saving || view.editing || view.identity.None? {
        return;
      }
      if index >= |view.identity.value| || index == view.workspace {
        return;
      }
      view := view.(workspace := index);
      view := view.(session := view.session + 1, detail := view.detail + 1, list := view.list + 1);
      view := view.(issues := [], selected := None, comments := [], cursor := None, detailLoading := false);
      ResetSprints();
      Refresh(false);
    }

    method BeginWrite(r: Request)
      modifies this
      ensures view == Write(old(view), r)
    {
      view := view.(list := view.list + 1);
      view := view.(loading := false);
      view := view.(saving := true);
      Spawn(r);
    }

    method SaveIssue(titled: bool)
      modifies this
      ensures view == Desktop.SaveIssue(old(view), titled)
    {
      if view.saving || !CanWrite(view) || !titled {
        return;
      }
      BeginWrite(Save(view.session, Slugged(view).value, view.editKey));
    }

    method PostUpdate(overlay: bool, blank: bool)
      modifies this
      ensures view == Desktop.PostUpdate(old(view), overlay, blank)
    {
      if view.saving || !CanWrite(view) || overlay || view.editing || view.detailLoading || blank
        || view.selected.None? {
        return;
      }
      BeginWrite(Post(view.session, view.detail, Slugged(view).value, view.selected.value.key));
    }

    method MutateIssue(overlay: bool)
      modifies this
      ensures view == Desktop.MutateIssue(old(view), overlay)
    {
      if view.saving || !CanWrite(view) || view.detailLoading || overlay || view.editing || view.selected.None? {
        return;
      }
      BeginWrite(Mutate(view.session, view.detail, Slugged(view).value, view.selected.value.key));
    }

    method LogOut()
      modifies this
      ensures view == BeginLogOut(old(view))
    {
      if view.saving {
        return;
      }
      BeginWrite(Revoke);
    }

    method SelectSprint(id: Option<string>)
      modifies this
      ensures view == Desktop.SelectSprint(old(view), id)
    {
      view := view.(milestones := view.milestones + 1);
      view := view.(milestone := None, milestoneIssues := None, sprint := id, board := []);
      var slug := Slugged(view);
      if id.None? || slug.None? {
        return;
      }
      view := view.(sprints := view.sprints + 1);
      Spawn(Milestones(view.session, view.sprints, slug.value, id.value));
    }

    method ToggleMilestone(id: string)
      modifies this
      ensures view == Desktop.ToggleMilestone(old(view), id)
    {
      view := view.(milestones := view.milestones + 1);
      view := view.(milestoneIssues := None);
      if view.milestone == Some(id) {
        view := view.(milestone := None);
        return;
      }
      view := view.(milestone := Some(id));
      var slug := Slugged(view);
      if slug.None? {
        return;
      }
      Spawn(MilestoneIssues(view.session, view.milestones, slug.value, id));
    }

    /** The reply to a list: the page replaces the rows, or adds those that are not there yet. */
    method ListArrived(k: nat, page: seq<Issue>, next: Option<string>)
      requires k in view.pending && view.pending[k].List? && Honest(view.pending[k], Page(page, next))
      modifies this
      ensures view == Arrive(old(view), k, Page(page, next))
    {
      hide Honest, IndexOf;
      var r := view.pending[k];
      view := view.(pending := view.pending - {k});
      if view.session != r.session || view.list != r.list {
        return;
      }
      view := view.(loading := false);
      view := view.(cursor := next);
      if r.more {
        var rows := Grow(view.issues, page);
        view := view.(issues := rows);
      } else {
        view := view.(issues := page);
      }
    }

    /** Appends the issues of the page that are not there yet. */
    static method Grow(issues: seq<Issue>, page: seq<Issue>) returns (rows: seq<Issue>)
      ensures rows == Extended(issues, page)
    {
      rows := issues;
      for n := 0 to |page|
        invariant rows == Extended(issues, page[..n])
      {
        assert page[..n + 1][..n] == page[..n];
        var found := Position(rows, page[n].id);
        if found.None? {
          rows := rows + [page[n]];
        }
      }
      assert page[..|page|] == page;
    }

    /** Puts a saved issue on the screen, in its row or above the others, and opens it again. */
    method ShowSaved(issue: Issue)
      modifies this
      ensures view == Saved(old(view), issue)
    {
      hide Desktop.SelectIssue, IndexOf;
      var found := Position(view.issues, issue.id);
      if found.Some? {
        view := view.(issues := view.issues[found.value := issue]);
      } else {
        view := view.(issues := [issue] + view.issues);
      }
      view := view.(selected := Some(issue));
      view := view.(detail := view.detail + 1);
      view := view.(comments := [], detailLoading := false, editing := false);
      found := Position(view.issues, issue.id);
      if found.Some? {
        SelectIssue(found.value);
      }
    }

    /** The reply to a saved form. */
    method SaveArrived(k: nat, issue: Issue)
      requires k in view.pending && view.pending[k].Save? && Honest(view.pending[k], Single(issue))
      modifies this
      ensures view == Arrive(old(view), k, Single(issue))
    {
      hide Honest, Saved;
      var r := view.pending[k];
      view := view.(pending := view.pending - {k});
      if view.session != r.session {
        return;
      }
      view := view.(saving := false);
      ShowSaved(issue);
    }

    /** Forgets everything of the account that signed out. */
    method Forget()
      modifies this
      ensures view == SignedOut(old(view))
    {
      view := view.(session := view.session + 1, list := view.list + 1, detail := view.detail + 1);
      view := view.(identity := None, issues := [], selected := None, comments := [], workspace := 0, cursor := None);
      view := view.(editKey := None, editing := false, detailLoading := false);
      ResetSprints();
      view := view.(sprintsView := false, loading := false);
    }

    /** The reply to a sign-out, which no revision guards. */
    method LogOutArrived(k: nat, ok: bool)
      requires k in view.pending && view.pending[k].Revoke?
      modifies this
      ensures view == Arrive(old(view), k, if ok then Done else Failed)
    {
      hide SignedOut;
      view := view.(pending := view.pending - {k});
      view := view.(saving := false);
      if ok {
        Forget();
      }
    }
  }
}
