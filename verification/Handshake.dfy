/**
 * The two-row authorization handshake with GitHub: a setup row for the organisation being connected
 * and a grant row for each authorization round trip. Every method is one transaction.
 */
module Handshake {
  import opened Bytes

  type Hash = string
  type User = nat
  type Workspace = nat
  type Time = int

  /** Fifteen minutes, in microseconds. */
  const TTL: Time := 900_000_000

  datatype Phase = Installation | Authorization | Completed
  datatype Purpose = Link | Install

  datatype Setup = Setup(
    session: Hash, user: User, workspace: Workspace, candidate: nat,
    phase: Phase, claimed: bool, completed: bool, expires: Time)

  datatype Grant = Grant(
    session: Hash, user: User, purpose: Purpose, setup: Option<Hash>, link: Option<Workspace>,
    verifier: string, claimed: bool, completed: bool, expires: Time)

  datatype Tables = Tables(setups: map<Hash, Setup>, grants: map<Hash, Grant>)

  const EMPTY := Tables(map[], map[])

  /** Who asks, and whether the session exists, is theirs and has not expired. */
  datatype Caller = Caller(session: Hash, user: User, live: bool)

  /** What a claim hands to its caller, apart from the verifier. */
  datatype Evidence = Evidence(
    state: Hash, session: Hash, user: User, purpose: Purpose, setup: Option<Hash>,
    workspace: Workspace, candidate: nat, link: Option<Workspace>)

  // ----- Transactions as functions -----

  function Created(t: Tables, token: Hash, who: Caller, workspace: Workspace, now: Time): Tables {
    t.(setups := t.setups[token := Setup(who.session, who.user, workspace, 0, Installation, false, false, now + TTL)])
  }

  predicate Startable(t: Tables, setup: Hash, who: Caller, candidate: nat, admin: bool, now: Time) {
    && candidate > 0 && admin && who.live && setup in t.setups
    && var g := t.setups[setup];
       && g.session == who.session && g.user == who.user && g.expires > now
       && g.phase == Installation && !g.claimed && !g.completed
  }

  function Started(t: Tables, setup: Hash, who: Caller, candidate: nat, token: Hash, verifier: string,
                   now: Time): Tables
    requires setup in t.setups
  {
    var g := t.setups[setup];
    var expires := if g.expires < now + TTL then g.expires else now + TTL;
    Tables(
      t.setups[setup := g.(phase := Authorization, claimed := true, candidate := candidate)],
      t.grants[token := Grant(who.session, who.user, Install, Some(setup), None, verifier, false, false, expires)])
  }

  function Linked(t: Tables, token: Hash, who: Caller, link: Option<Workspace>, verifier: string, now: Time): Tables {
    t.(grants := t.grants[token := Grant(who.session, who.user, Link, None, link, verifier, false, false, now + TTL)])
  }

  /** The grant can be read back by its owner, together with the setup it belongs to. */
  predicate Visible(t: Tables, state: Hash, who: Caller, now: Time) {
    && state in t.grants && who.live
    && var a := t.grants[state];
       && a.session == who.session && a.user == who.user && a.expires > now
       && (a.purpose == Link ||
           (&& a.setup.Some? && a.setup.value in t.setups
            && var g := t.setups[a.setup.value];
               && g.session == a.session && g.user == a.user && g.expires > now && g.candidate > 0 && g.claimed
               && ((g.phase == Authorization && !g.completed && !a.completed)
                   || (g.phase == Completed && g.completed && a.completed))))
  }

  predicate Claimable(t: Tables, state: Hash, who: Caller, purpose: Purpose, now: Time) {
    && Visible(t, state, who, now)
    && t.grants[state].purpose == purpose && !t.grants[state].completed && !t.grants[state].claimed
  }

  function Claimed(t: Tables, state: Hash): Tables
    requires state in t.grants
  {
    t.(grants := t.grants[state := t.grants[state].(claimed := true, verifier := "")])
  }

  function EvidenceOf(t: Tables, state: Hash): Evidence
    requires state in t.grants
  {
    var a := t.grants[state];
    if a.setup.Some? && a.setup.value in t.setups then
      var g := t.setups[a.setup.value];
      Evidence(state, a.session, a.user, a.purpose, a.setup, g.workspace, g.candidate, a.link)
    else
      Evidence(state, a.session, a.user, a.purpose, a.setup, 0, 0, a.link)
  }

  /** The evidence names a grant that is claimed and not yet completed. */
  predicate GrantHeld(t: Tables, e: Evidence, live: bool, now: Time) {
    && live && e.state in t.grants
    && var a := t.grants[e.state];
       && a.session == e.session && a.user == e.user && a.purpose == e.purpose && a.setup == e.setup && a.link == e.link
       && a.claimed && !a.completed && a.expires > now
  }

  /** The evidence still holds both rows open; checked before a binding and again when completing it. */
  predicate Held(t: Tables, e: Evidence, admin: bool, live: bool, now: Time) {
    && e.purpose == Install && e.setup.Some? && e.candidate > 0 && admin && e.setup.value in t.setups
    && var g := t.setups[e.setup.value];
       && g.session == e.session && g.user == e.user && g.workspace == e.workspace && g.candidate == e.candidate
       && g.phase == Authorization && g.claimed && !g.completed && g.expires > now
       && GrantHeld(t, e, live, now)
  }

  function Finished(t: Tables, e: Evidence): Tables
    requires e.setup.Some? && e.setup.value in t.setups && e.state in t.grants
  {
    Tables(
      t.setups[e.setup.value := t.setups[e.setup.value].(phase := Completed, completed := true)],
      t.grants[e.state := t.grants[e.state].(completed := true, verifier := "")])
  }

  function LinkFinished(t: Tables, e: Evidence): Tables
    requires e.state in t.grants
  {
    t.(grants := t.grants[e.state := t.grants[e.state].(completed := true, verifier := "")])
  }

  /** Rows vanish with their session, user or organisation, or when they expire; a grant never outlives its setup. */
  function Dropped(t: Tables, setups: set<Hash>, grants: set<Hash>): Tables {
    var gone := set h | h in t.grants && t.grants[h].setup.Some? && t.grants[h].setup.value in setups;
    Tables(t.setups - setups, t.grants - grants - gone)
  }

  // ----- The store -----

  class Handshakes {
    var setups: map<Hash, Setup>
    var grants: map<Hash, Grant>

    function Rows(): Tables
      reads this
    {
      Tables(setups, grants)
    }

    constructor ()
      ensures Rows() == EMPTY
    {
      setups, grants := map[], map[];
    }

    method CreateGitHubSetup(token: Hash, who: Caller, workspace: Workspace, admin: bool, now: Time) returns (ok: bool)
      modifies this
      ensures ok == (admin && who.live)
      ensures Rows() == if ok then Created(old(Rows()), token, who, workspace, now) else old(Rows())
    {
      if !admin || !who.live {
        return false;
      }
      setups := setups[token := Setup(who.session, who.user, workspace, 0, Installation, false, false, now + TTL)];
      return true;
    }

    method StartGitHubInstallationAuthorization(
      setup: Hash, who: Caller, candidate: nat, admin: bool, token: Hash, verifier: string, now: Time)
        returns (ok: bool)
      modifies this
      ensures ok == Startable(old(Rows()), setup, who, candidate, admin, now)
      ensures Rows() == if ok then Started(old(Rows()), setup, who, candidate, token, verifier, now) else old(Rows())
    {
      if candidate == 0 || setup !in setups || setups[setup].session != who.session || setups[setup].user != who.user {
        return false;
      }
      if !admin || !who.live {
        return false;
      }
      var g := setups[setup];
      if g.expires <= now || g.phase != Installation || g.claimed || g.completed {
        return false;
      }
      setups := setups[setup := g.(phase := Authorization, claimed := true, candidate := candidate)];
      var expires := if g.expires < now + TTL then g.expires else now + TTL;
      grants := grants[token :=
                       Grant(who.session, who.user, Install, Some(setup), None, verifier, false, false, expires)];
      return true;
    }

    method CreateGitHubLinkAuthorization(
      token: Hash, who: Caller, link: Option<Workspace>, member: bool, verifier: string, now: Time) returns (ok: bool)
      modifies this
      ensures ok == (who.live && (link.None? || member))
      ensures Rows() == if ok then Linked(old(Rows()), token, who, link, verifier, now) else old(Rows())
    {
      if !who.live || (link.Some? && !member) {
        return false;
      }
      grants := grants[token := Grant(who.session, who.user, Link, None, link, verifier, false, false, now + TTL)];
      return true;
    }

    /** Hands the verifier out and erases it. */
    method ClaimGitHubAuthorization(state: Hash, who: Caller, purpose: Purpose, now: Time)
      returns (r: Option<(Evidence, string)>)
      modifies this
      ensures r.Some? == Claimable(old(Rows()), state, who, purpose, now)
      ensures r.None? ==> Rows() == old(Rows())
      ensures r.Some? ==>
                && Rows() == Claimed(old(Rows()), state)
                && r.value == (EvidenceOf(old(Rows()), state), old(grants)[state].verifier)
    {
      if !who.live || state !in grants || !Visible(Rows(), state, who, now) {
        return None;
      }
      var a := grants[state];
      if a.purpose != purpose || a.completed || a.claimed {
        return None;
      }
      var e := EvidenceOf(Rows(), state);
      grants := grants[state := a.(claimed := true, verifier := "")];
      return Some((e, a.verifier));
    }

    /** Completes both rows together, after checking again that the claim still holds them. */
    method CompleteGitHubInstallationAuthorization(e: Evidence, admin: bool, live: bool, now: Time) returns (ok: bool)
      modifies this
      ensures ok == Held(old(Rows()), e, admin, live, now)
      ensures Rows() == if ok then Finished(old(Rows()), e) else old(Rows())
    {
      if !Held(Rows(), e, admin, live, now) {
        return false;
      }
      setups := setups[e.setup.value := setups[e.setup.value].(phase := Completed, completed := true)];
      grants := grants[e.state := grants[e.state].(completed := true, verifier := "")];
      return true;
    }

    /** The receipt of a completed setup, or nothing. */
    method CompletedGitHubSetup(setup: Hash, who: Caller, candidate: nat, now: Time) returns (r: Option<Workspace>)
      ensures r.Some? <==>
              && who.live && setup in setups
              && setups[setup].session == who.session && setups[setup].user == who.user
              && setups[setup].candidate == candidate && setups[setup].expires > now
              && setups[setup].phase == Completed && setups[setup].completed
      ensures r.Some? ==> r.value == setups[setup].workspace
    {
      if !who.live || setup !in setups {
        return None;
      }
      var g := setups[setup];
      if g.session != who.session || g.user != who.user || g.candidate != candidate || g.expires <= now
         || g.phase != Completed || !g.completed {
        return None;
      }
      return Some(g.workspace);
    }
  }

  // ----- What every transaction keeps -----

  predicate SetupSound(g: Setup) {
    && (g.phase == Installation <==> !g.claimed)
    && (g.phase == Completed <==> g.completed)
    && (g.claimed ==> g.candidate > 0)
  }

  /** A grant to install belongs to a started setup and is completed exactly when the setup is. */
  predicate GrantSound(t: Tables, a: Grant) {
    && (a.claimed <==> a.verifier == "")
    && (a.completed ==> a.claimed)
    && (a.purpose == Install <==> a.setup.Some?)
    && (a.setup.Some? ==>
          && a.setup.value in t.setups
          && var g := t.setups[a.setup.value];
             g.claimed && g.session == a.session && g.user == a.user && (g.completed <==> a.completed))
  }

  predicate Sound(t: Tables) {
    && (forall h <- t.setups :: SetupSound(t.setups[h]))
    && (forall h <- t.grants :: GrantSound(t, t.grants[h]))
    && (forall h, k | h in t.grants && k in t.grants ::
          t.grants[h].setup.Some? && t.grants[h].setup == t.grants[k].setup ==> h == k)
  }

  // ----- Runs -----

  /** One committed transaction. */
  datatype Event =
    | Create(token: Hash, who: Caller, workspace: Workspace, at: Time)
    | Start(setup: Hash, who: Caller, candidate: nat, token: Hash, verifier: string, at: Time)
    | StartLink(token: Hash, who: Caller, link: Option<Workspace>, verifier: string, at: Time)
    | Claim(state: Hash, who: Caller, purpose: Purpose, at: Time)
    | Finish(evidence: Evidence, at: Time)
    | FinishLink(evidence: Evidence, at: Time)
    | Drop(setups: set<Hash>, grants: set<Hash>)

  /** Random tokens are new, and so is a verifier, which is never empty. */
  predicate Enabled(t: Tables, issued: set<Hash>, e: Event) {
    match e
    case Create(token, who, _, _) => who.live && token !in issued
    case Start(setup, who, candidate, token, verifier, at) =>
      Startable(t, setup, who, candidate, true, at) && token !in issued && verifier != ""
    case StartLink(token, who, _, verifier, _) => who.live && token !in issued && verifier != ""
    case Claim(state, who, purpose, at) => Claimable(t, state, who, purpose, at)
    case Finish(ev, at) => Held(t, ev, true, true, at)
    case FinishLink(ev, at) => ev.purpose == Link && ev.setup.None? && GrantHeld(t, ev, true, at)
    case Drop(_, _) => true
  }

  function Next(t: Tables, issued: set<Hash>, e: Event): Tables
    requires Enabled(t, issued, e)
  {
    match e
    case Create(token, who, workspace, at) => Created(t, token, who, workspace, at)
    case Start(setup, who, candidate, token, verifier, at) => Started(t, setup, who, candidate, token, verifier, at)
    case StartLink(token, who, link, verifier, at) => Linked(t, token, who, link, verifier, at)
    case Claim(state, _, _, _) => Claimed(t, state)
    case Finish(ev, _) => Finished(t, ev)
    case FinishLink(ev, _) => LinkFinished(t, ev)
    case Drop(setups, grants) => Dropped(t, setups, grants)
  }

  function Tokens(e: Event): set<Hash> {
    match e
    case Create(token, _, _, _) => {token}
    case Start(_, _, _, token, _, _) => {token}
    case StartLink(token, _, _, _, _) => {token}
    case _ => {}
  }

  /** All tokens issued by a run. */
  function Issued(es: seq<Event>): set<Hash> {
    if es == [] then {} else Issued(es[..|es| - 1]) + Tokens(es[|es| - 1])
  }

  predicate Legal(es: seq<Event>)
    decreases es, 0
  {
    es == [] ||
    (Legal(es[..|es| - 1]) && Enabled(After(es[..|es| - 1]), Issued(es[..|es| - 1]), es[|es| - 1]))
  }

  function After(es: seq<Event>): Tables
    requires Legal(es)
    decreases es, 1
  {
    if es == [] then EMPTY else Next(After(es[..|es| - 1]), Issued(es[..|es| - 1]), es[|es| - 1])
  }

  function Starts(es: seq<Event>, setup: Hash): nat {
    if es == [] then 0
    else Starts(es[..|es| - 1], setup) + if es[|es| - 1].Start? && es[|es| - 1].setup == setup then 1 else 0
  }

  function HandOuts(es: seq<Event>, state: Hash): nat {
    if es == [] then 0
    else HandOuts(es[..|es| - 1], state) + if es[|es| - 1].Claim? && es[|es| - 1].state == state then 1 else 0
  }

  /** What the rows say about the past: a count is one exactly for a row that shows it. */
  ghost predicate Remembers(t: Tables, issued: set<Hash>, starts: Hash -> nat, handOuts: Hash -> nat) {
    && t.setups.Keys <= issued && t.grants.Keys <= issued
    && (forall h :: starts(h) <= 1 && handOuts(h) <= 1)
    && (forall h | h !in issued :: starts(h) == 0 == handOuts(h))
    && (forall h <- t.setups :: starts(h) == if t.setups[h].claimed then 1 else 0)
    && (forall h <- t.grants :: handOuts(h) == if t.grants[h].claimed then 1 else 0)
  }

  lemma SoundStep(t: Tables, issued: set<Hash>, e: Event)
    requires Sound(t) && t.setups.Keys <= issued && t.grants.Keys <= issued && Enabled(t, issued, e)
    ensures Sound(Next(t, issued, e))
  {
    hide Startable, Claimable;
    match e
    case Start(setup, who, candidate, token, verifier, at) => StartSound(t, setup, who, candidate, token, verifier, at);
    case Claim(state, who, purpose, at) => ClaimSound(t, state, who, purpose, at);
    case Finish(ev, at) => FinishSound(t, ev, at);
    case _ =>
  }

  lemma StartSound(t: Tables, setup: Hash, who: Caller, candidate: nat, token: Hash, verifier: string, at: Time)
    requires Sound(t) && Startable(t, setup, who, candidate, true, at) && token !in t.grants && verifier != ""
    ensures Sound(Started(t, setup, who, candidate, token, verifier, at))
  {
  }

  lemma ClaimSound(t: Tables, state: Hash, who: Caller, purpose: Purpose, at: Time)
    requires Sound(t) && Claimable(t, state, who, purpose, at)
    ensures Sound(Claimed(t, state))
  {
  }

  lemma FinishSound(t: Tables, e: Evidence, at: Time)
    requires Sound(t) && Held(t, e, true, true, at)
    ensures Sound(Finished(t, e))
  {
  }

  lemma RemembersStep(t: Tables, issued: set<Hash>, e: Event,
                      starts: Hash -> nat, handOuts: Hash -> nat, starts': Hash -> nat, handOuts': Hash -> nat)
    requires Sound(t) && Remembers(t, issued, starts, handOuts) && Enabled(t, issued, e)
    requires forall h :: starts'(h) == starts(h) + if e.Start? && e.setup == h then 1 else 0
    requires forall h :: handOuts'(h) == handOuts(h) + if e.Claim? && e.state == h then 1 else 0
    ensures Remembers(Next(t, issued, e), issued + Tokens(e), starts', handOuts')
  {
    hide GrantSound, SetupSound;
  }

  /** Each setup starts at most one authorization and each verifier is handed out at most once. */
  lemma {:induction false} AtMostOnce(es: seq<Event>)
    requires Legal(es)
    ensures Sound(After(es))
    ensures Remembers(After(es), Issued(es), h => Starts(es, h), h => HandOuts(es, h))
  {
    hide Enabled, Next;
    if es != [] {
      hide Sound, Remembers;
      var prior := es[..|es| - 1];
      AtMostOnce(prior);
      SoundStep(After(prior), Issued(prior), es[|es| - 1]);
      RemembersStep(After(prior), Issued(prior), es[|es| - 1],
                    h => Starts(prior, h), h => HandOuts(prior, h), h => Starts(es, h), h => HandOuts(es, h));
    }
  }

  // ----- What the log says about a row -----

  /**
   * The story of a setup: who opened it, for what and when, whether a candidate was chosen, and whether it was
   * finished.
   */
  datatype SetupStory =
    | NoSetup
    | SetupStory(who: Caller, workspace: Workspace, at: Time, candidate: Option<nat>, finished: bool)

  function SetupTurn(e: Event, h: Hash, story: SetupStory): SetupStory {
    match e
    case Create(token, who, workspace, at) => if token == h then SetupStory(who, workspace, at, None, false) else story
    case Start(setup, _, candidate, _, _, _) =>
      if setup == h && story.SetupStory? then story.(candidate := Some(candidate)) else story
    case Finish(ev, _) => if ev.setup == Some(h) && story.SetupStory? then story.(finished := true) else story
    case Drop(setups, _) => if h in setups then NoSetup else story
    case _ => story
  }

  function SetupOf(es: seq<Event>, h: Hash): SetupStory {
    if es == [] then NoSetup else SetupTurn(es[|es| - 1], h, SetupOf(es[..|es| - 1], h))
  }

  /** The story of a grant: who asked for what, with which verifier, until when, and what became of it. */
  datatype GrantStory =
    | NoGrant
    | GrantStory(who: Caller, purpose: Purpose, setup: Option<Hash>, link: Option<Workspace>, verifier: string,
                 until: Time, handed: bool, finished: bool)

  /** Fifteen minutes, and no longer than the setup it belongs to. */
  function Until(setup: SetupStory, at: Time): Time {
    if setup.SetupStory? && setup.at < at then setup.at + 900_000_000 else at + 900_000_000
  }

  function GrantTurn(e: Event, g: Hash, story: GrantStory, setup: SetupStory): GrantStory {
    match e
    case Start(h, who, _, token, verifier, at) =>
      if token == g then GrantStory(who, Install, Some(h), None, verifier, Until(setup, at), false, false) else story
    case StartLink(token, who, link, verifier, at) =>
      if token == g then GrantStory(who, Link, None, link, verifier, at + 900_000_000, false, false) else story
    case Claim(state, _, _, _) => if state == g && story.GrantStory? then story.(handed := true) else story
    case Finish(ev, _) => if ev.state == g && story.GrantStory? then story.(finished := true) else story
    case FinishLink(ev, _) => if ev.state == g && story.GrantStory? then story.(finished := true) else story
    case Drop(setups, grants) =>
      if g in grants || (story.GrantStory? && story.setup.Some? && story.setup.value in setups) then NoGrant else story
    case _ => story
  }

  function GrantOf(es: seq<Event>, g: Hash): GrantStory {
    if es == [] then NoGrant
    else
      var prior, e := es[..|es| - 1], es[|es| - 1];
      GrantTurn(e, g, GrantOf(prior, g), if e.Start? then SetupOf(prior, e.setup) else NoSetup)
  }

  /** The row of a setup tells its story. */
  ghost predicate SetupTold(t: Tables, h: Hash, story: SetupStory) {
    && (h in t.setups <==> story.SetupStory?)
    && (h in t.setups ==>
          var g := t.setups[h];
          && g.session == story.who.session && g.user == story.who.user && g.workspace == story.workspace
          && g.expires == story.at + 900_000_000
          && g.candidate == (if story.candidate.Some? then story.candidate.value else 0)
          && (g.claimed <==> story.candidate.Some?) && (g.completed <==> story.finished)
          && (g.phase == Completed <==> story.finished)
          && (g.phase == Installation <==> story.candidate.None? && !story.finished))
  }

  /** The row of a grant tells its story, and keeps the verifier only until it is handed out. */
  ghost predicate GrantTold(t: Tables, g: Hash, story: GrantStory) {
    && (g in t.grants <==> story.GrantStory?)
    && (g in t.grants ==>
          var a := t.grants[g];
          && a.session == story.who.session && a.user == story.who.user && a.purpose == story.purpose
          && a.setup == story.setup && a.link == story.link && a.expires == story.until
          && (a.claimed <==> story.handed) && (a.completed <==> story.finished)
          && a.verifier == if story.handed || story.finished then "" else story.verifier)
  }

  lemma SetupToldStep(t: Tables, issued: set<Hash>, e: Event, h: Hash, story: SetupStory)
    requires SetupTold(t, h, story) && Sound(t) && Enabled(t, issued, e)
    ensures SetupTold(Next(t, issued, e), h, SetupTurn(e, h, story))
  {
    hide GrantSound;
  }

  lemma GrantToldStep(t: Tables, issued: set<Hash>, e: Event, g: Hash, story: GrantStory, setup: SetupStory)
    requires GrantTold(t, g, story) && Sound(t) && Enabled(t, issued, e)
    requires e.Start? ==> SetupTold(t, e.setup, setup)
    ensures GrantTold(Next(t, issued, e), g, GrantTurn(e, g, story, setup))
  {
    hide SetupSound;
  }

  /** In every run each row tells exactly the story of its own events. */
  lemma {:induction false} RowsFollowLog(es: seq<Event>)
    requires Legal(es)
    ensures forall h :: SetupTold(After(es), h, SetupOf(es, h))
    ensures forall g :: GrantTold(After(es), g, GrantOf(es, g))
  {
    if es != [] {
      hide Sound, Enabled, Next, SetupTold, GrantTold, SetupTurn, GrantTurn;
      var prior, e := es[..|es| - 1], es[|es| - 1];
      RowsFollowLog(prior);
      AtMostOnce(prior);
      forall h | true ensures SetupTold(After(es), h, SetupOf(es, h)) {
        SetupToldStep(After(prior), Issued(prior), e, h, SetupOf(prior, h));
      }
      forall g | true ensures GrantTold(After(es), g, GrantOf(es, g)) {
        GrantToldStep(After(prior), Issued(prior), e, g, GrantOf(prior, g),
                      if e.Start? then SetupOf(prior, e.setup) else NoSetup);
      }
    }
  }

  /** A setup can be started exactly by its live owner, within fifteen minutes of being opened, once. */
  lemma StartExactly(es: seq<Event>, setup: Hash, who: Caller, candidate: nat, admin: bool, now: Time)
    requires Legal(es)
    ensures Startable(After(es), setup, who, candidate, admin, now) <==>
            && candidate > 0 && admin && who.live
            && var story := SetupOf(es, setup);
               && story.SetupStory? && story.who.session == who.session && story.who.user == who.user
               && now < story.at + 900_000_000 && story.candidate.None? && !story.finished
  {
    hide Legal, After, SetupOf;
    RowsFollowLog(es);
    assert SetupTold(After(es), setup, SetupOf(es, setup));
  }

  /** The setup of a grant to install is waiting for it. */
  ghost predicate Awaits(es: seq<Event>, h: Hash, who: Caller, now: Time) {
    var story := SetupOf(es, h);
    && story.SetupStory? && story.who.session == who.session && story.who.user == who.user
    && story.candidate.Some? && !story.finished && now < story.at + 900_000_000
  }

  /**
   * A verifier is handed out exactly once, to the live owner of the grant, for its purpose, before it expires, and,
   * for an installation, while the setup it was started from waits for it.
   */
  lemma ClaimExactly(es: seq<Event>, state: Hash, who: Caller, purpose: Purpose, now: Time)
    requires Legal(es)
    ensures Claimable(After(es), state, who, purpose, now) <==>
            && who.live
            && var story := GrantOf(es, state);
               && story.GrantStory? && story.who.session == who.session && story.who.user == who.user
               && story.purpose == purpose && !story.handed && !story.finished && now < story.until
               && (purpose == Install ==> story.setup.Some? && Awaits(es, story.setup.value, who, now))
    ensures Claimable(After(es), state, who, purpose, now) ==>
              var t, story := After(es), GrantOf(es, state);
              && t.grants[state].verifier == story.verifier
              && EvidenceOf(t, state) == Told(es, state)
  {
    hide Legal, After, SetupOf, GrantOf;
    RowsFollowLog(es);
    AtMostOnce(es);
    var t, story := After(es), GrantOf(es, state);
    assert GrantTold(t, state, story);
    if state in t.grants {
      assert GrantSound(t, t.grants[state]);
      if t.grants[state].setup.Some? {
        var h := t.grants[state].setup.value;
        assert SetupTold(t, h, SetupOf(es, h));
        assert SetupSound(t.setups[h]);
      }
    }
  }

  /** The evidence that the log gives for a grant. */
  function Told(es: seq<Event>, state: Hash): Evidence
    requires GrantOf(es, state).GrantStory?
  {
    var story := GrantOf(es, state);
    if story.setup.Some? && SetupOf(es, story.setup.value).SetupStory? then
      var g := SetupOf(es, story.setup.value);
      Evidence(state, story.who.session, story.who.user, story.purpose, story.setup, g.workspace,
               if g.candidate.Some? then g.candidate.value else 0, story.link)
    else
      Evidence(state, story.who.session, story.who.user, story.purpose, story.setup, 0, 0, story.link)
  }

  /**
   * An installation can be bound on the strength of some evidence exactly if that is what the log gives for a grant
   * whose verifier was handed out, neither row is finished or expired, and the caller is still live and an
   * administrator.
   */
  lemma HoldExactly(es: seq<Event>, e: Evidence, admin: bool, live: bool, now: Time)
    requires Legal(es)
    ensures Held(After(es), e, admin, live, now) <==>
            && admin && live
            && var story := GrantOf(es, e.state);
               && story.GrantStory? && story.purpose == Install && story.setup.Some?
               && story.handed && !story.finished && now < story.until
               && Awaits(es, story.setup.value, story.who, now) && e == Told(es, e.state)
  {
    hide Legal, After, SetupOf, GrantOf;
    RowsFollowLog(es);
    AtMostOnce(es);
    var t, story := After(es), GrantOf(es, e.state);
    assert GrantTold(t, e.state, story);
    if e.state in t.grants {
      assert GrantSound(t, t.grants[e.state]);
      if t.grants[e.state].setup.Some? {
        var h := t.grants[e.state].setup.value;
        assert SetupTold(t, h, SetupOf(es, h));
        assert SetupSound(t.setups[h]);
      }
    }
    if e.setup.Some? {
      assert SetupTold(t, e.setup.value, SetupOf(es, e.setup.value));
    }
  }

  /**
   * A link can be finished on the strength of some evidence exactly if the log gives it for a grant handed out,
   * unfinished and unexpired.
   */
  lemma LinkHoldExactly(es: seq<Event>, e: Evidence, live: bool, now: Time)
    requires Legal(es) && e.purpose == Link && e.setup.None?
    ensures GrantHeld(After(es), e, live, now) <==>
            && live
            && var story := GrantOf(es, e.state);
               && story.GrantStory? && story.purpose == Link && story.setup.None?
               && story.handed && !story.finished && now < story.until
               && e == Told(es, e.state).(workspace := e.workspace, candidate := e.candidate)
  {
    hide Legal, After, SetupOf, GrantOf;
    RowsFollowLog(es);
    assert GrantTold(After(es), e.state, GrantOf(es, e.state));
  }
}
