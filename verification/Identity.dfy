/**
 * Which GitHub account attributes a person's work in an organisation: the account they claimed there,
 * or else their global account unless somebody else claimed it there. Identity changes are serialised
 * by one lock, so every method is one transaction.
 */
module Identity {
  import opened Bytes

  type User = nat
  type Workspace = nat
  type Member = (Workspace, User)

  datatype Account = Account(id: nat, login: string)

  /** Global accounts, memberships, and the accounts claimed for one organisation. */
  datatype State = State(global: map<User, Account>, members: set<Member>, scoped: map<Member, Account>)

  const EMPTY := State(map[], {}, map[])

  datatype Error = NotFound | Duplicate
  datatype Outcome = Committed(state: State) | Refused(error: Error)

  function LowerChar(c: char): char {
    if 'A' <= c <= 'Z' then (c as int + 32) as char else c
  }

  function Lower(s: string): string {
    seq(|s|, i requires 0 <= i < |s| => LowerChar(s[i]))
  }

  /** Two records of one GitHub account: the same id, or the same login in any case. */
  predicate Clash(a: Account, b: Account) {
    a.id == b.id || Lower(a.login) == Lower(b.login)
  }

  /** Somebody else claimed the account in this organisation. */
  predicate ClaimedByOther(s: State, m: Member, a: Account) {
    exists k <- s.scoped :: k.0 == m.0 && k.1 != m.1 && Clash(s.scoped[k], a)
  }

  /** The account that attributes the member's work, if any. */
  function Effective(s: State, m: Member): Option<Account> {
    if m !in s.members then None
    else if m in s.scoped then Some(s.scoped[m])
    else if m.1 in s.global && !ClaimedByOther(s, m, s.global[m.1]) then Some(s.global[m.1])
    else None
  }

  predicate Shows(s: State, m: Member, a: Account) {
    Effective(s, m).Some? && Clash(Effective(s, m).value, a)
  }

  /** Another member of the organisation already shows the account. */
  predicate CollidesIn(s: State, w: Workspace, u: User, a: Account) {
    exists m <- s.members :: m.0 == w && m.1 != u && Shows(s, m, a)
  }

  /** A global change matters in the organisations where the person has no claim of their own. */
  predicate Collides(s: State, u: User, a: Account) {
    exists m <- s.members :: (m.0, u) in s.members && (m.0, u) !in s.scoped && m.1 != u && Shows(s, m, a)
  }

  /** Another person holds the account globally; the columns are unique. */
  predicate TakenGlobally(s: State, u: User, a: Account) {
    exists v <- s.global :: v != u && Clash(s.global[v], a)
  }

  predicate Named(a: Account) {
    a.id > 0 && a.login != ""
  }

  function LinkedIn(s: State, w: Workspace, u: User, a: Account): Outcome {
    if !Named(a) || (w, u) !in s.members then Refused(NotFound)
    else if CollidesIn(s, w, u, a) then Refused(Duplicate)
    else Committed(s.(scoped := s.scoped[(w, u) := a]))
  }

  function LinkedGlobally(s: State, u: User, a: Account): Outcome {
    if !Named(a) then Refused(NotFound)
    else if Collides(s, u, a) || TakenGlobally(s, u, a) then Refused(Duplicate)
    else Committed(s.(global := s.global[u := a]))
  }

  function UnlinkedIn(s: State, w: Workspace, u: User): Outcome {
    if (w, u) !in s.scoped then Refused(NotFound) else Committed(s.(scoped := s.scoped - {(w, u)}))
  }

  function UnlinkedGlobally(s: State, u: User): State {
    s.(global := s.global - {u})
  }

  function Joined(s: State, w: Workspace, u: User): State {
    s.(members := s.members + {(w, u)})
  }

  /** Leaving drops the claim made there. */
  function Left(s: State, w: Workspace, u: User): State {
    s.(members := s.members - {(w, u)}, scoped := s.scoped - {(w, u)})
  }

  // ----- The store -----

  predicate Ends(o: Outcome, before: State, after: State, error: Option<Error>) {
    match o
    case Committed(t) => after == t && error.None?
    case Refused(e) => after == before && error == Some(e)
  }

  class Store {
    var global: map<User, Account>
    var members: set<Member>
    var scoped: map<Member, Account>

    function Tables(): State
      reads this
    {
      State(global, members, scoped)
    }

    constructor ()
      ensures Tables() == EMPTY
    {
      global, members, scoped := map[], {}, map[];
    }

    method LinkMembershipGitHubIdentity(w: Workspace, u: User, a: Account) returns (error: Option<Error>)
      modifies this`scoped
      ensures Ends(LinkedIn(old(Tables()), w, u, a), old(Tables()), Tables(), error)
    {
      if a.id == 0 || a.login == "" || (w, u) !in members {
        return Some(NotFound);
      }
      if CollidesIn(Tables(), w, u, a) {
        return Some(Duplicate);
      }
      scoped := scoped[(w, u) := a];
      return None;
    }

    /** The completion of a link that names no organisation. */
    method CompleteGitHubLink(u: User, a: Account) returns (error: Option<Error>)
      modifies this`global
      ensures Ends(LinkedGlobally(old(Tables()), u, a), old(Tables()), Tables(), error)
    {
      if a.id == 0 || a.login == "" {
        return Some(NotFound);
      }
      if Collides(Tables(), u, a) {
        return Some(Duplicate);
      }
      if TakenGlobally(Tables(), u, a) {
        return Some(Duplicate);
      }
      global := global[u := a];
      return None;
    }

    method UnlinkMembershipGitHubIdentity(w: Workspace, u: User) returns (error: Option<Error>)
      modifies this`scoped
      ensures Ends(UnlinkedIn(old(Tables()), w, u), old(Tables()), Tables(), error)
    {
      if (w, u) !in scoped {
        return Some(NotFound);
      }
      scoped := scoped - {(w, u)};
      return None;
    }

    method UnlinkGitHub(u: User)
      modifies this`global
      ensures Tables() == UnlinkedGlobally(old(Tables()), u)
    {
      global := global - {u};
    }

    method Join(w: Workspace, u: User)
      modifies this`members
      ensures Tables() == Joined(old(Tables()), w, u)
    {
      members := members + {(w, u)};
    }

    method LeaveWorkspace(w: Workspace, u: User)
      modifies this`members, this`scoped
      ensures Tables() == Left(old(Tables()), w, u)
    {
      members := members - {(w, u)};
      scoped := scoped - {(w, u)};
    }

    /** The account and whether it was claimed for this organisation. */
    method GitHubIdentityForMembership(w: Workspace, u: User) returns (r: Option<(Account, bool)>)
      ensures r.Some? == Effective(Tables(), (w, u)).Some?
      ensures r.Some? ==> r.value == (Effective(Tables(), (w, u)).value, (w, u) in scoped)
    {
      var m := (w, u);
      if m !in members {
        return None;
      }
      if m in scoped {
        return Some((scoped[m], true));
      }
      if m.1 !in global || ClaimedByOther(Tables(), m, global[m.1]) {
        return None;
      }
      return Some((global[m.1], false));
    }
  }

  // ----- Runs -----

  datatype Op =
    | LinkIn(w: Workspace, u: User, a: Account)
    | LinkGlobal(u: User, a: Account)
    | UnlinkIn(w: Workspace, u: User)
    | UnlinkGlobal(u: User)
    | Join(w: Workspace, u: User)
    | Leave(w: Workspace, u: User)

  function Result(s: State, op: Op): Outcome {
    match op
    case LinkIn(w, u, a) => LinkedIn(s, w, u, a)
    case LinkGlobal(u, a) => LinkedGlobally(s, u, a)
    case UnlinkIn(w, u) => UnlinkedIn(s, w, u)
    case UnlinkGlobal(u) => Committed(UnlinkedGlobally(s, u))
    case Join(w, u) => Committed(Joined(s, w, u))
    case Leave(w, u) => Committed(Left(s, w, u))
  }

  function Next(s: State, op: Op): State {
    match Result(s, op)
    case Committed(t) => t
    case Refused(_) => s
  }

  function Run(s: State, ops: seq<Op>): State {
    if ops == [] then s else Next(Run(s, ops[..|ops| - 1]), ops[|ops| - 1])
  }

  /** Claims belong to members, and neither claims within an organisation nor global accounts clash. */
  ghost predicate Sound(s: State) {
    && s.scoped.Keys <= s.members
    && (forall k, m :: k in s.scoped && m in s.scoped && k.0 == m.0 && k.1 != m.1 ==> !Clash(s.scoped[k], s.scoped[m]))
    && (forall u, v :: u in s.global && v in s.global && u != v ==> !Clash(s.global[u], s.global[v]))
  }

  /** No two members of one organisation show the same GitHub account. */
  ghost predicate Unambiguous(s: State) {
    forall k, m :: k in s.members && m in s.members && k.0 == m.0 && k.1 != m.1 && Effective(s, k).Some? ==>
      !Shows(s, m, Effective(s, k).value)
  }

  lemma ClashIsSymmetric(a: Account, b: Account)
    ensures Clash(a, b) == Clash(b, a)
  {
  }

  /** A claim wins over a global account, so claims and global accounts that do not clash suffice. */
  lemma SoundIsUnambiguous(s: State)
    requires Sound(s)
    ensures Unambiguous(s)
  {
    hide Clash;
    forall k, m | k in s.members && m in s.members && k.0 == m.0 && k.1 != m.1 && Effective(s, k).Some?
      ensures !Shows(s, m, Effective(s, k).value)
    {
      if Effective(s, m).Some? {
        ClashIsSymmetric(Effective(s, k).value, Effective(s, m).value);
      }
    }
  }

  lemma StepSound(s: State, op: Op)
    requires Sound(s)
    ensures Sound(Next(s, op))
  {
    hide Clash;
    match op
    case LinkIn(w, u, a) =>
      if Result(s, op).Committed? { LinkedInSound(s, w, u, a); }
    case LinkGlobal(u, a) =>
      if Result(s, op).Committed? { LinkedGloballySound(s, u, a); }
    case _ =>
  }

  lemma LinkedInSound(s: State, w: Workspace, u: User, a: Account)
    requires Sound(s) && LinkedIn(s, w, u, a).Committed?
    ensures Sound(LinkedIn(s, w, u, a).state)
  {
    hide Clash;
    forall k <- s.scoped | k.0 == w && k.1 != u ensures !Clash(s.scoped[k], a) && !Clash(a, s.scoped[k]) {
      assert !Shows(s, k, a);
      ClashIsSymmetric(a, s.scoped[k]);
    }
  }

  lemma LinkedGloballySound(s: State, u: User, a: Account)
    requires Sound(s) && LinkedGlobally(s, u, a).Committed?
    ensures Sound(LinkedGlobally(s, u, a).state)
  {
    hide Clash, Collides;
    forall v <- s.global | v != u ensures !Clash(a, s.global[v]) {
      ClashIsSymmetric(a, s.global[v]);
    }
  }

  /** Whatever happens, no two members of an organisation ever show the same account. */
  lemma {:induction false} RunIsUnambiguous(s: State, ops: seq<Op>)
    requires Sound(s)
    ensures Sound(Run(s, ops)) && Unambiguous(Run(s, ops))
  {
    hide Sound, Unambiguous, Next;
    if ops == [] {
      SoundIsUnambiguous(s);
    } else {
      RunIsUnambiguous(s, ops[..|ops| - 1]);
      StepSound(Run(s, ops[..|ops| - 1]), ops[|ops| - 1]);
      SoundIsUnambiguous(Run(s, ops));
    }
  }

  /** The person whose rows the operation writes. */
  function Actor(op: Op): User {
    op.u
  }

  /** No operation takes away or changes the account that another remaining member shows. */
  lemma OthersKeepTheirs(s: State, op: Op, m: Member)
    requires m in s.members && m.1 != Actor(op) && Effective(s, m).Some?
    ensures Effective(Next(s, op), m) == Effective(s, m)
  {
    hide Clash;
    match op
    case LinkIn(w, u, a) =>
      if Result(s, op).Committed? && m.0 == w && m !in s.scoped {
        assert !Shows(s, m, a);
        ClashIsSymmetric(a, s.global[m.1]);
      }
    case _ =>
  }

  /** A member who showed none can only gain their own global account. */
  lemma OthersGainOnlyTheirOwn(s: State, op: Op, m: Member)
    requires m.1 != Actor(op) && Effective(s, m).None? && Effective(Next(s, op), m).Some?
    ensures m.1 in s.global && Effective(Next(s, op), m) == Some(s.global[m.1])
  {
    hide Clash;
  }

  /** A link for an organisation makes the account effective there. */
  lemma LinkInIsEffective(s: State, w: Workspace, u: User, a: Account)
    requires LinkedIn(s, w, u, a).Committed?
    ensures Effective(LinkedIn(s, w, u, a).state, (w, u)) == Some(a)
  {
  }

  /** A global link makes the account effective wherever the person has no claim of their own. */
  lemma LinkGlobalIsEffective(s: State, u: User, a: Account, w: Workspace)
    requires Sound(s) && LinkedGlobally(s, u, a).Committed? && (w, u) in s.members && (w, u) !in s.scoped
    ensures Effective(LinkedGlobally(s, u, a).state, (w, u)) == Some(a)
  {
    hide Clash;
    forall k <- s.scoped | k.0 == w && k.1 != u ensures !Clash(s.scoped[k], a) {
      assert !Shows(s, k, a);
    }
  }

  /** Every refused organisation link is refused for cause: forced through, it would rob a member or be ambiguous. */
  lemma RefusalIsNeeded(s: State, w: Workspace, u: User, a: Account)
    requires LinkedIn(s, w, u, a) == Refused(Duplicate)
    ensures var t := s.(scoped := s.scoped[(w, u) := a]);
            exists m <- s.members :: m.0 == w && m.1 != u && Effective(s, m).Some?
              && (Effective(t, m).None? || Shows(t, m, a))
  {
    hide Clash;
    var m :| m in s.members && m.0 == w && m.1 != u && Shows(s, m, a);
    var t := s.(scoped := s.scoped[(w, u) := a]);
    if m !in s.scoped {
      ClashIsSymmetric(a, s.global[m.1]);
      assert (w, u) in t.scoped && t.scoped[(w, u)] == a;
    }
  }

  /**
   * So is a global link refused for a collision: forced through, it would be hidden or ambiguous in some organisation.
   */
  lemma GlobalRefusalIsNeeded(s: State, u: User, a: Account)
    requires Collides(s, u, a)
    ensures var t := s.(global := s.global[u := a]);
            exists m <- s.members :: m.1 != u && (m.0, u) in s.members && (m.0, u) !in s.scoped
              && (Effective(t, (m.0, u)).None? || Shows(t, m, a))
  {
    hide Clash;
    var m :| m in s.members && (m.0, u) in s.members && (m.0, u) !in s.scoped && m.1 != u && Shows(s, m, a);
    var t := s.(global := s.global[u := a]);
    assert Effective(t, m) == Effective(s, m);
  }

  // ----- What the log says -----

  /** One letter in either case. */
  predicate SameLetter(c: char, d: char) {
    || c == d
    || ('A' <= c <= 'Z' && d as int == c as int + 32)
    || ('A' <= d <= 'Z' && c as int == d as int + 32)
  }

  /** Two records of one GitHub account. */
  predicate SameAccount(a: Account, b: Account) {
    a.id == b.id ||
    (|a.login| == |b.login| && forall i | 0 <= i < |a.login| :: SameLetter(a.login[i], b.login[i]))
  }

  lemma ClashMeans(a: Account, b: Account)
    ensures Clash(a, b) <==> SameAccount(a, b)
  {
    if Lower(a.login) == Lower(b.login) {
      forall i | 0 <= i < |a.login| ensures SameLetter(a.login[i], b.login[i]) {
        assert Lower(a.login)[i] == Lower(b.login)[i];
      }
    }
    if |a.login| == |b.login| && forall i | 0 <= i < |a.login| :: SameLetter(a.login[i], b.login[i]) {
      assert Lower(a.login) == Lower(b.login);
    }
  }

  function StateAfter(ops: seq<Op>): State {
    Run(EMPTY, ops)
  }

  predicate Succeeds(ops: seq<Op>)
    requires ops != []
  {
    Result(StateAfter(ops[..|ops| - 1]), ops[|ops| - 1]).Committed?
  }

  /** Joined, and not left since. */
  predicate Belongs(ops: seq<Op>, m: Member) {
    ops != [] &&
    match ops[|ops| - 1]
    case Join(w, u) => m == (w, u) || Belongs(ops[..|ops| - 1], m)
    case Leave(w, u) => m != (w, u) && Belongs(ops[..|ops| - 1], m)
    case _ => Belongs(ops[..|ops| - 1], m)
  }

  /** The account linked last for the organisation, unless it was unlinked there or the person left. */
  function ClaimOf(ops: seq<Op>, m: Member): Option<Account> {
    if ops == [] then None
    else
      var before := ClaimOf(ops[..|ops| - 1], m);
      match ops[|ops| - 1]
      case LinkIn(w, u, a) => if m == (w, u) && Succeeds(ops) then Some(a) else before
      case UnlinkIn(w, u) => if m == (w, u) then None else before
      case Leave(w, u) => if m == (w, u) then None else before
      case _ => before
  }

  /** The account linked last without an organisation, unless it was unlinked. */
  function GlobalOf(ops: seq<Op>, u: User): Option<Account> {
    if ops == [] then None
    else
      var before := GlobalOf(ops[..|ops| - 1], u);
      match ops[|ops| - 1]
      case LinkGlobal(v, a) => if u == v && Succeeds(ops) then Some(a) else before
      case UnlinkGlobal(v) => if u == v then None else before
      case _ => before
  }

  /** The tables say what the log says, of every member and person. */
  lemma {:induction false} TablesFollowLog(ops: seq<Op>)
    ensures var s := StateAfter(ops);
            && (forall m :: m in s.members <==> Belongs(ops, m))
            && (forall m :: m in s.scoped <==> ClaimOf(ops, m).Some?)
            && (forall m <- s.scoped :: ClaimOf(ops, m) == Some(s.scoped[m]))
            && (forall u :: u in s.global <==> GlobalOf(ops, u).Some?)
            && (forall u <- s.global :: GlobalOf(ops, u) == Some(s.global[u]))
  {
    hide CollidesIn, Collides, TakenGlobally, Named;
    if ops != [] {
      TablesFollowLog(ops[..|ops| - 1]);
    }
  }

  /** Somebody else claimed the account in the organisation. */
  ghost predicate ClaimedElsewhere(ops: seq<Op>, m: Member, a: Account) {
    exists k: Member :: k.0 == m.0 && k.1 != m.1 && ClaimOf(ops, k).Some? && SameAccount(ClaimOf(ops, k).value, a)
  }

  /**
   * The account that attributes a member's work: their claim there, or else their global account unless somebody else
   * claimed it.
   */
  ghost function Shown(ops: seq<Op>, m: Member): Option<Account> {
    if !Belongs(ops, m) then None
    else if ClaimOf(ops, m).Some? then ClaimOf(ops, m)
    else if GlobalOf(ops, m.1).Some? && !ClaimedElsewhere(ops, m, GlobalOf(ops, m.1).value) then GlobalOf(ops, m.1)
    else None
  }

  lemma EffectiveFollowsLog(ops: seq<Op>, m: Member)
    ensures Effective(StateAfter(ops), m) == Shown(ops, m)
  {
    hide Clash, SameAccount, StateAfter, Belongs, ClaimOf, GlobalOf;
    TablesFollowLog(ops);
    var s := StateAfter(ops);
    if m.1 in s.global {
      var a := s.global[m.1];
      if ClaimedByOther(s, m, a) {
        var k :| k in s.scoped && k.0 == m.0 && k.1 != m.1 && Clash(s.scoped[k], a);
        ClashMeans(s.scoped[k], a);
      }
      if ClaimedElsewhere(ops, m, a) {
        var k: Member :| k.0 == m.0 && k.1 != m.1 && ClaimOf(ops, k).Some? && SameAccount(ClaimOf(ops, k).value, a);
        ClashMeans(s.scoped[k], a);
        assert k in s.scoped;
      }
    }
  }

  /** Another member of the organisation shows the account. */
  ghost predicate ShownElsewhere(ops: seq<Op>, w: Workspace, u: User, a: Account) {
    exists v :: v != u && Shown(ops, (w, v)).Some? && SameAccount(Shown(ops, (w, v)).value, a)
  }

  lemma CollidesFollowsLog(ops: seq<Op>, w: Workspace, u: User, a: Account)
    ensures CollidesIn(StateAfter(ops), w, u, a) <==> ShownElsewhere(ops, w, u, a)
  {
    hide Clash, SameAccount, StateAfter, Effective, Shown;
    var s := StateAfter(ops);
    TablesFollowLog(ops);
    if CollidesIn(s, w, u, a) {
      var m :| m in s.members && m.0 == w && m.1 != u && Shows(s, m, a);
      EffectiveFollowsLog(ops, m);
      ClashMeans(Effective(s, m).value, a);
      assert Shown(ops, (w, m.1)).Some?;
    }
    if ShownElsewhere(ops, w, u, a) {
      var v :| v != u && Shown(ops, (w, v)).Some? && SameAccount(Shown(ops, (w, v)).value, a);
      EffectiveFollowsLog(ops, (w, v));
      ClashMeans(Effective(s, (w, v)).value, a);
      ShownBelongs(ops, (w, v));
      assert (w, v) in s.members && Shows(s, (w, v), a);
    }
  }

  lemma ShownBelongs(ops: seq<Op>, m: Member)
    ensures Shown(ops, m).Some? ==> Belongs(ops, m)
  {
  }

  /**
   * In every run, an account is claimed for an organisation exactly if it is named, by a member, and no other member
   * shows it.
   */
  lemma LinkInExactly(ops: seq<Op>, w: Workspace, u: User, a: Account)
    ensures Result(StateAfter(ops), LinkIn(w, u, a)).Committed? <==>
            a.id > 0 && a.login != "" && Belongs(ops, (w, u)) && !ShownElsewhere(ops, w, u, a)
  {
    hide CollidesIn, StateAfter, ShownElsewhere, Belongs;
    TablesFollowLog(ops);
    CollidesFollowsLog(ops, w, u, a);
  }

  /** Another person holds the account without an organisation. */
  ghost predicate HeldElsewhere(ops: seq<Op>, u: User, a: Account) {
    exists v :: v != u && GlobalOf(ops, v).Some? && SameAccount(GlobalOf(ops, v).value, a)
  }

  /**
   * A global account is set exactly if it is named, nobody else holds it globally, and nobody else shows it in any
   * organisation where the person is a member without a claim.
   */
  lemma LinkGlobalExactly(ops: seq<Op>, u: User, a: Account)
    ensures Result(StateAfter(ops), LinkGlobal(u, a)).Committed? <==>
            && a.id > 0 && a.login != "" && !HeldElsewhere(ops, u, a)
            && forall w :: Belongs(ops, (w, u)) && ClaimOf(ops, (w, u)).None? ==> !ShownElsewhere(ops, w, u, a)
  {
    hide Clash, SameAccount, StateAfter, Effective, Belongs, ClaimOf, GlobalOf, ShownElsewhere;
    var s := StateAfter(ops);
    TablesFollowLog(ops);
    forall w | true ensures CollidesIn(s, w, u, a) <==> ShownElsewhere(ops, w, u, a) {
      CollidesFollowsLog(ops, w, u, a);
    }
    CollidesIsSomewhere(s, u, a);
    forall v | GlobalOf(ops, v).Some? ensures Clash(s.global[v], a) <==> SameAccount(GlobalOf(ops, v).value, a) {
      ClashMeans(s.global[v], a);
    }
    if TakenGlobally(s, u, a) {
      var v :| v in s.global && v != u && Clash(s.global[v], a);
      assert GlobalOf(ops, v).Some?;
    }
  }

  lemma CollidesIsSomewhere(s: State, u: User, a: Account)
    ensures Collides(s, u, a) <==> exists w :: (w, u) in s.members && (w, u) !in s.scoped && CollidesIn(s, w, u, a)
  {
    hide Shows;
    if Collides(s, u, a) {
      var m :| m in s.members && (m.0, u) in s.members && (m.0, u) !in s.scoped && m.1 != u && Shows(s, m, a);
      assert CollidesIn(s, m.0, u, a);
    }
  }

  /** A claim can be given up exactly if there is one. */
  lemma UnlinkInExactly(ops: seq<Op>, w: Workspace, u: User)
    ensures Result(StateAfter(ops), UnlinkIn(w, u)).Committed? <==> ClaimOf(ops, (w, u)).Some?
  {
    hide StateAfter, ClaimOf;
    TablesFollowLog(ops);
  }
}
