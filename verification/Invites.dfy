/**
 * Invitations, sign-in links sent by mail, and what confirming one does: it consumes the link, finds or
 * creates the user, accepts the invitation and opens a session, all in one transaction.
 */
module Invites {
  import opened Bytes

  type User = nat
  type Workspace = nat
  type InviteId = nat
  type Secret = string
  /** A normalised address. */
  type Email = string
  type Role = string
  type Time = int

  /** Microseconds. */
  const MINUTE: Time := 60_000_000
  const WINDOW: Time := 15 * MINUTE
  const INVITE_TTL: Time := 7 * 24 * 60 * MINUTE
  const EMAIL_LIMIT := 5
  const ADDRESS_LIMIT := 20

  datatype Invite = Invite(workspace: Workspace, email: Email, role: Role, expires: Time, accepted: bool, revoked: bool)

  datatype LoginToken =
    LoginToken(email: Email, address: string, invite: Option<InviteId>, created: Time, consumed: bool)

  datatype State = State(
    invites: map<InviteId, Invite>, tokens: map<Secret, LoginToken>, users: map<User, Email>,
    members: map<(Workspace, User), Role>, sessions: map<Secret, User>)

  const EMPTY := State(map[], map[], map[], map[], map[])

  datatype Error = NotFound | Forbidden | RateLimited | BadRequest
  datatype Outcome = Committed(state: State) | Refused(error: Error)

  predicate Pending(i: Invite) {
    !i.accepted && !i.revoked
  }

  predicate PendingFor(i: Invite, w: Workspace, email: Email) {
    Pending(i) && i.workspace == w && i.email == email
  }

  // ----- Invitations -----

  /** The links of revoked invitations are consumed with them. */
  function Revoked(s: State, ids: set<InviteId>): State {
    s.(invites := map i <- s.invites :: if i in ids then s.invites[i].(revoked := true) else s.invites[i],
       tokens := map t <- s.tokens ::
         if s.tokens[t].invite.Some? && s.tokens[t].invite.value in ids
         then s.tokens[t].(consumed := true)
         else s.tokens[t])
  }

  function RevokedOne(s: State, w: Workspace, id: InviteId): Outcome {
    if id !in s.invites || s.invites[id].workspace != w || !Pending(s.invites[id]) then Refused(NotFound)
    else Committed(Revoked(s, {id}))
  }

  function Inserted(s: State, id: InviteId, w: Workspace, email: Email, role: Role, now: Time): State {
    s.(invites := s.invites[id := Invite(w, email, role, now + INVITE_TTL, false, false)])
  }

  function OpenFor(invites: map<InviteId, Invite>, w: Workspace, email: Email): set<InviteId> {
    set i | i in invites && PendingFor(invites[i], w, email)
  }

  /** Inviting an address again replaces the invitation it has. */
  function Created(s: State, id: InviteId, w: Workspace, email: Email, role: Role, now: Time): State {
    Inserted(Revoked(s, OpenFor(s.invites, w, email)), id, w, email, role, now)
  }

  function Replaced(s: State, w: Workspace, previous: InviteId, id: InviteId, role: Role, now: Time): Outcome {
    if previous !in s.invites || s.invites[previous].workspace != w || !Pending(s.invites[previous]) then
      Refused(NotFound)
    else
      var i := s.invites[previous];
      Committed(Inserted(Revoked(s, {previous}), id, w, i.email, if role == "" then i.role else role, now))
  }

  /** An existing member keeps the role they have. */
  function Accepted(s: State, id: InviteId, u: User, now: Time): Outcome {
    if id !in s.invites || !Pending(s.invites[id]) || s.invites[id].expires <= now then Refused(NotFound)
    else if u !in s.users then Refused(NotFound)
    else if s.users[u] != s.invites[id].email then Refused(Forbidden)
    else
      var i := s.invites[id];
      Committed(s.(invites := s.invites[id := i.(accepted := true)],
                   members := if (i.workspace, u) in s.members then s.members
                              else s.members[(i.workspace, u) := i.role]))
  }

  // ----- Sign-in links -----

  /** The links issued to an address, or from a network address, in the window that ends now. */
  function RecentTo(tokens: map<Secret, LoginToken>, email: Email, now: Time): set<Secret> {
    set t | t in tokens && tokens[t].email == email && tokens[t].created > now - WINDOW
  }

  function RecentFrom(tokens: map<Secret, LoginToken>, address: string, now: Time): set<Secret> {
    set t | t in tokens && tokens[t].address == address && tokens[t].created > now - WINDOW
  }

  /** An invitation's link carries no continuation. */
  function Issued(s: State, secret: Secret, email: Email, address: string, invite: Option<InviteId>, returning: bool,
                  now: Time): Outcome
  {
    if invite.Some? && returning then Refused(BadRequest)
    else if |RecentTo(s.tokens, email, now)| >= EMAIL_LIMIT then Refused(RateLimited)
    else if |RecentFrom(s.tokens, address, now)| >= ADDRESS_LIMIT then Refused(RateLimited)
    else if invite.Some? && invite.value !in s.invites then Refused(BadRequest)
    else Committed(s.(tokens := s.tokens[secret := LoginToken(email, address, invite, now, false)]))
  }

  predicate Usable(t: LoginToken, now: Time) {
    !t.consumed && t.created + WINDOW > now
  }

  /** The user with the address, or a new one. */
  ghost function UserOf(users: map<User, Email>, email: Email, newcomer: User): User {
    if exists u :: u in users && users[u] == email then
      var u :| u in users && users[u] == email;
      u
    else newcomer
  }

  ghost function Confirmed(s: State, secret: Secret, session: Secret, newcomer: User, now: Time): Outcome {
    if secret !in s.tokens || !Usable(s.tokens[secret], now) then Refused(NotFound)
    else
      var t := s.tokens[secret];
      var u := UserOf(s.users, t.email, newcomer);
      var known := s.(tokens := s.tokens[secret := t.(consumed := true)], users := s.users[u := t.email]);
      if t.invite.None? then Committed(known.(sessions := known.sessions[session := u]))
      else
        match Accepted(known, t.invite.value, u, now)
        case Refused(_) => Refused(NotFound)
        case Committed(joined) => Committed(joined.(sessions := joined.sessions[session := u]))
  }

  // ----- Upkeep -----

  /** Deleting invitations consumes their links before it detaches them. */
  function Detached(s: State, ids: set<InviteId>): State {
    s.(invites := s.invites - ids,
       tokens := map t <- s.tokens ::
         if s.tokens[t].invite.Some? && s.tokens[t].invite.value in ids
         then s.tokens[t].(consumed := true, invite := None) else s.tokens[t])
  }

  function WorkspaceDeleted(s: State, w: Workspace): State {
    var t := Detached(s, set i | i in s.invites && s.invites[i].workspace == w);
    t.(members := map m <- s.members | m.0 != w :: s.members[m])
  }

  /** Links are dropped when they have expired and no longer count against a limit. */
  predicate Droppable(t: LoginToken, now: Time) {
    t.created + WINDOW <= now
  }

  // ----- What every transaction keeps -----

  /** Two open invitations of one address to one organisation. */
  predicate Rival(a: Invite, b: Invite) {
    Pending(a) && Pending(b) && a.workspace == b.workspace && a.email == b.email
  }

  ghost predicate OneOpen(invites: map<InviteId, Invite>) {
    && (forall i, j :: i in invites && j in invites && Rival(invites[i], invites[j]) ==> i == j)
    && (forall i <- invites :: !(invites[i].accepted && invites[i].revoked))
  }

  ghost predicate OneUser(users: map<User, Email>) {
    forall u, v :: u in users && v in users && users[u] == users[v] ==> u == v
  }

  /** No link is to an invitation that is not there. */
  predicate Linked(s: State) {
    forall t <- s.tokens :: s.tokens[t].invite.Some? ==> s.tokens[t].invite.value in s.invites
  }

  /** One open invitation for each address, counting expired ones, and one user for each address. */
  ghost predicate Sound(s: State) {
    OneOpen(s.invites) && OneUser(s.users) && Linked(s)
  }

  datatype Event =
    | Create(id: InviteId, workspace: Workspace, email: Email, role: Role, at: Time)
    | Replace(workspace: Workspace, previous: InviteId, id: InviteId, role: Role, at: Time)
    | Revoke(workspace: Workspace, id: InviteId, at: Time)
    | Accept(id: InviteId, user: User, at: Time)
    | Issue(secret: Secret, email: Email, address: string, invite: Option<InviteId>, returning: bool, at: Time)
    | Confirm(secret: Secret, session: Secret, user: User, at: Time)
    | DeleteInvites(gone: set<InviteId>, at: Time)
    | DeleteWorkspace(workspace: Workspace, at: Time)
    | SetMember(workspace: Workspace, user: User, standing: Option<Role>, at: Time)
    | Drop(secrets: set<Secret>, sessions: set<Secret>, at: Time)

  ghost function Result(s: State, e: Event): Outcome {
    match e
    case Create(id, w, email, role, at) => Committed(Created(s, id, w, email, role, at))
    case Replace(w, previous, id, role, at) => Replaced(s, w, previous, id, role, at)
    case Revoke(w, id, _) => RevokedOne(s, w, id)
    case Accept(id, u, at) => Accepted(s, id, u, at)
    case Issue(secret, email, address, invite, returning, at) =>
      Issued(s, secret, email, address, invite, returning, at)
    case Confirm(secret, session, u, at) => Confirmed(s, secret, session, u, at)
    case DeleteInvites(ids, _) => Committed(Detached(s, ids))
    case DeleteWorkspace(w, _) => Committed(WorkspaceDeleted(s, w))
    case SetMember(w, u, role, _) =>
      Committed(s.(members := if role.Some? then s.members[(w, u) := role.value] else s.members - {(w, u)}))
    case Drop(secrets, sessions, _) => Committed(s.(tokens := s.tokens - secrets, sessions := s.sessions - sessions))
  }

  ghost function Next(s: State, e: Event): State {
    match Result(s, e)
    case Committed(t) => t
    case Refused(_) => s
  }

  /** New rows have new keys, and only expired links are dropped. */
  predicate Enabled(s: State, ids: set<InviteId>, secrets: set<Secret>, e: Event) {
    match e
    case Create(id, _, _, _, _) => id !in ids
    case Replace(_, _, id, _, _) => id !in ids
    case Issue(secret, _, _, _, _, _) => secret !in secrets
    case Confirm(_, _, u, _) => u !in s.users
    case Drop(gone, _, at) => forall t <- gone :: t in s.tokens ==> Droppable(s.tokens[t], at)
    case _ => true
  }

  lemma RevokedSound(s: State, ids: set<InviteId>)
    requires Sound(s) && forall i <- ids :: i in s.invites ==> Pending(s.invites[i])
    ensures Sound(Revoked(s, ids))
  {
    hide OneUser;
    assert forall i, j ::
      i in s.invites && j in s.invites && Rival(Revoked(s, ids).invites[i], Revoked(s, ids).invites[j]) ==>
        Rival(s.invites[i], s.invites[j]);
  }

  lemma InsertedSound(s: State, id: InviteId, w: Workspace, email: Email, role: Role, now: Time)
    requires Sound(s) && id !in s.invites && forall i <- s.invites :: !PendingFor(s.invites[i], w, email)
    ensures Sound(Inserted(s, id, w, email, role, now))
  {
    hide OneUser;
    assert forall i <- s.invites :: !Rival(s.invites[i], Inserted(s, id, w, email, role, now).invites[id]);
  }

  lemma CreatedSound(s: State, id: InviteId, w: Workspace, email: Email, role: Role, now: Time)
    requires Sound(s) && id !in s.invites
    ensures Sound(Created(s, id, w, email, role, now))
  {
    hide Sound;
    var previous := OpenFor(s.invites, w, email);
    RevokedSound(s, previous);
    InsertedSound(Revoked(s, previous), id, w, email, role, now);
  }

  lemma ReplacedSound(s: State, w: Workspace, previous: InviteId, id: InviteId, role: Role, now: Time)
    requires Sound(s) && id !in s.invites && Replaced(s, w, previous, id, role, now).Committed?
    ensures Sound(Replaced(s, w, previous, id, role, now).state)
  {
    var i := s.invites[previous];
    RevokedSound(s, {previous});
    assert forall j <- s.invites :: PendingFor(s.invites[j], w, i.email) ==> Rival(s.invites[j], i);
    hide Sound;
    InsertedSound(Revoked(s, {previous}), id, w, i.email, if role == "" then i.role else role, now);
  }

  lemma AcceptedSound(s: State, id: InviteId, u: User, now: Time)
    requires Sound(s) && Accepted(s, id, u, now).Committed?
    ensures Sound(Accepted(s, id, u, now).state)
  {
    hide OneUser;
    var t := Accepted(s, id, u, now).state;
    assert forall i, j ::
      i in s.invites && j in s.invites && Rival(t.invites[i], t.invites[j]) ==> Rival(s.invites[i], s.invites[j]);
  }

  lemma UserOfIsOne(users: map<User, Email>, email: Email, newcomer: User)
    requires OneUser(users) && newcomer !in users
    ensures var u := UserOf(users, email, newcomer);
            OneUser(users[u := email]) && (u in users ==> users[u] == email)
  {
  }

  lemma ConfirmedSound(s: State, secret: Secret, session: Secret, newcomer: User, now: Time)
    requires Sound(s) && newcomer !in s.users && Confirmed(s, secret, session, newcomer, now).Committed?
    ensures Sound(Confirmed(s, secret, session, newcomer, now).state)
  {
    hide OneOpen, OneUser, UserOf, Accepted;
    var t := s.tokens[secret];
    var u := UserOf(s.users, t.email, newcomer);
    UserOfIsOne(s.users, t.email, newcomer);
    var known := s.(tokens := s.tokens[secret := t.(consumed := true)], users := s.users[u := t.email]);
    if t.invite.Some? {
      AcceptedSound(known, t.invite.value, u, now);
    }
  }

  lemma DetachedSound(s: State, ids: set<InviteId>, w: Workspace)
    requires Sound(s)
    ensures Sound(Detached(s, ids)) && Sound(WorkspaceDeleted(s, w))
  {
    hide OneUser;
  }

  lemma StepSound(s: State, ids: set<InviteId>, secrets: set<Secret>, e: Event)
    requires Sound(s) && s.invites.Keys <= ids && Enabled(s, ids, secrets, e)
    ensures Sound(Next(s, e))
  {
    hide OneOpen, OneUser, Created, Replaced, Revoked, Accepted, Confirmed, Detached, WorkspaceDeleted;
    match e
    case Create(id, w, email, role, at) => CreatedSound(s, id, w, email, role, at);
    case Replace(w, previous, id, role, at) =>
      if Result(s, e).Committed? { ReplacedSound(s, w, previous, id, role, at); }
    case Revoke(w, id, _) => if Result(s, e).Committed? { RevokedSound(s, {id}); }
    case Accept(id, u, at) => if Result(s, e).Committed? { AcceptedSound(s, id, u, at); }
    case Issue(_, _, _, _, _, _) =>
    case Confirm(secret, session, u, at) => if Result(s, e).Committed? { ConfirmedSound(s, secret, session, u, at); }
    case DeleteInvites(ids', _) => DetachedSound(s, ids', 0);
    case DeleteWorkspace(w, _) => DetachedSound(s, {}, w);
    case SetMember(_, _, _, _) =>
    case Drop(_, _, _) =>
  }

  // ----- Dead invitations -----

  /** The link was consumed, or its invitation was revoked or accepted. */
  predicate DeadLink(s: State, secret: Secret) {
    secret in s.tokens ==>
      (|| s.tokens[secret].consumed
       || (&& s.tokens[secret].invite.Some? && s.tokens[secret].invite.value in s.invites
           && !Pending(s.invites[s.tokens[secret].invite.value])))
  }

  lemma DeadLinkIsRefused(s: State, secret: Secret, session: Secret, newcomer: User, now: Time)
    requires DeadLink(s, secret)
    ensures Confirmed(s, secret, session, newcomer, now).Refused?
  {
    hide UserOf;
  }

  lemma DeadStaysDead(s: State, ids: set<InviteId>, secrets: set<Secret>, e: Event, secret: Secret)
    requires Enabled(s, ids, secrets, e) && s.invites.Keys <= ids && secret in secrets && DeadLink(s, secret)
    ensures DeadLink(Next(s, e), secret)
  {
    hide UserOf, Sound;
  }

  /** Revoking an invitation, or replacing it, kills the links it has. */
  lemma RevocationKills(s: State, e: Event, id: InviteId, secret: Secret)
    requires id in s.invites && id in Next(s, e).invites && !s.invites[id].revoked && Next(s, e).invites[id].revoked
    requires Linked(s) && secret in s.tokens && s.tokens[secret].invite == Some(id)
    ensures DeadLink(Next(s, e), secret)
    ensures secret in Next(s, e).tokens && Next(s, e).tokens[secret].consumed
  {
    hide UserOf;
  }

  /** A link issued for an invitation that is no longer open is dead from the start. */
  lemma LateLinkIsDead(s: State, e: Event, id: InviteId)
    requires e.Issue? && e.invite == Some(id) && id in s.invites && !Pending(s.invites[id]) && e.secret !in s.tokens
    ensures DeadLink(Next(s, e), e.secret)
  {
  }

  // ----- Acceptance -----

  /** The event accepts the invitation, directly or by confirming a link. */
  ghost predicate Accepts(s: State, e: Event, id: InviteId) {
    && Result(s, e).Committed?
    && ((e.Accept? && e.id == id) || (e.Confirm? && e.secret in s.tokens && s.tokens[e.secret].invite == Some(id)))
  }

  /** Only an open invitation is accepted, and afterwards it is not open. */
  lemma AcceptanceCloses(s: State, ids: set<InviteId>, secrets: set<Secret>, e: Event, id: InviteId)
    requires s.invites.Keys <= ids && Enabled(s, ids, secrets, e)
    ensures Accepts(s, e, id) ==>
              id in s.invites && Pending(s.invites[id]) && id in Next(s, e).invites && Next(s, e).invites[id].accepted
    ensures id in ids && (id in s.invites ==> !Pending(s.invites[id])) ==>
              (id in Next(s, e).invites ==> !Pending(Next(s, e).invites[id]))
  {
    hide UserOf, Sound;
  }

  /** Whoever accepts, nobody's role changes, and only the invited address gains one. */
  lemma AcceptanceKeepsRoles(s: State, e: Event, m: (Workspace, User))
    requires e.Accept? || e.Confirm?
    ensures m in s.members ==> m in Next(s, e).members && Next(s, e).members[m] == s.members[m]
    ensures m in Next(s, e).members && m !in s.members ==>
              exists id <- s.invites :: Accepts(s, e, id)
                && m.0 == s.invites[id].workspace && m.1 in Next(s, e).users
                && Next(s, e).users[m.1] == s.invites[id].email && Next(s, e).members[m] == s.invites[id].role
  {
    hide Sound;
    if m in Next(s, e).members && m !in s.members {
      if e.Accept? {
        assert Accepts(s, e, e.id);
      } else {
        assert Accepts(s, e, s.tokens[e.secret].invite.value);
      }
    }
  }

  /** A session is opened only for the user with the address the link was sent to. */
  lemma SessionIsForAddress(s: State, e: Event, session: Secret)
    requires Sound(s) && session !in s.sessions && session in Next(s, e).sessions
    requires e.Confirm? ==> e.user !in s.users
    ensures e.Confirm? && e.session == session && e.secret in s.tokens
    ensures !s.tokens[e.secret].consumed && e.at < s.tokens[e.secret].created + 900_000_000
    ensures var u := Next(s, e).sessions[session];
            u in Next(s, e).users && Next(s, e).users[u] == s.tokens[e.secret].email
    ensures e.secret in Next(s, e).tokens && Next(s, e).tokens[e.secret].consumed
  {
    hide OneOpen, Linked;
  }

  // ----- Runs -----

  function Ids(es: seq<Event>): set<InviteId> {
    if es == [] then {}
    else Ids(es[..|es| - 1]) + match es[|es| - 1]
                                case Create(id, _, _, _, _) => {id}
                                case Replace(_, _, id, _, _) => {id}
                                case _ => {}
  }

  function Secrets(es: seq<Event>): set<Secret> {
    if es == [] then {}
    else Secrets(es[..|es| - 1]) + if es[|es| - 1].Issue? then {es[|es| - 1].secret} else {}
  }

  function Clock(es: seq<Event>): Time
    requires es != []
  {
    es[|es| - 1].at
  }

  /** Every event was possible when it happened, and the clock never went back. */
  ghost predicate Legal(es: seq<Event>)
    decreases es, 0
  {
    es == [] ||
    var prior := es[..|es| - 1];
    && Legal(prior) && Enabled(After(prior), Ids(prior), Secrets(prior), es[|es| - 1])
    && (prior != [] ==> Clock(prior) <= Clock(es))
  }

  ghost function After(es: seq<Event>): State
    requires Legal(es)
    decreases es, 1
  {
    if es == [] then EMPTY else Next(After(es[..|es| - 1]), es[|es| - 1])
  }

  ghost function Acceptances(es: seq<Event>, id: InviteId): nat
    requires Legal(es)
  {
    if es == [] then 0
    else Acceptances(es[..|es| - 1], id) + if Accepts(After(es[..|es| - 1]), es[|es| - 1], id) then 1 else 0
  }

  lemma NewKeys(s: State, ids: set<InviteId>, secrets: set<Secret>, e: Event)
    requires s.invites.Keys <= ids && s.tokens.Keys <= secrets && Enabled(s, ids, secrets, e)
    ensures Next(s, e).invites.Keys <= ids + Ids([e]) && Next(s, e).tokens.Keys <= secrets + Secrets([e])
  {
    assert [e][..0] == [];
    NewInvites(s, ids, secrets, e);
    if e.Issue? || e.Drop? {
      hide RecentTo, RecentFrom;
    } else {
      hide Next, Enabled;
      LinksStay(s, e);
    }
  }

  lemma NewInvites(s: State, ids: set<InviteId>, secrets: set<Secret>, e: Event)
    requires s.invites.Keys <= ids && Enabled(s, ids, secrets, e)
    ensures Next(s, e).invites.Keys <= ids + Ids([e])
  {
    hide UserOf, Secrets, RecentTo, RecentFrom;
    assert [e][..0] == [];
  }

  lemma KeysGrow(es: seq<Event>)
    requires es != []
    ensures Ids(es) == Ids(es[..|es| - 1]) + Ids([es[|es| - 1]])
    ensures Secrets(es) == Secrets(es[..|es| - 1]) + Secrets([es[|es| - 1]])
  {
    assert [es[|es| - 1]][..0] == [];
  }

  lemma {:induction false} RunSound(es: seq<Event>)
    requires Legal(es)
    ensures Sound(After(es)) && After(es).invites.Keys <= Ids(es) && After(es).tokens.Keys <= Secrets(es)
  {
    if es != [] {
      hide Sound, Next, Enabled;
      var prior, e := es[..|es| - 1], es[|es| - 1];
      RunSound(prior);
      KeysGrow(es);
      NewKeys(After(prior), Ids(prior), Secrets(prior), e);
      StepSound(After(prior), Ids(prior), Secrets(prior), e);
    }
  }

  /** An invitation is accepted at most once, and one that was ever accepted is no longer open. */
  lemma {:induction false} AcceptedAtMostOnce(es: seq<Event>, id: InviteId)
    requires Legal(es)
    ensures Acceptances(es, id) <= 1
    ensures id !in Ids(es) ==> Acceptances(es, id) == 0
    ensures Acceptances(es, id) == 1 && id in After(es).invites ==> !Pending(After(es).invites[id])
  {
    if es != [] {
      hide Next, Enabled, Accepts;
      var prior, e := es[..|es| - 1], es[|es| - 1];
      AcceptedAtMostOnce(prior, id);
      RunSound(prior);
      KeysGrow(es);
      AcceptanceCloses(After(prior), Ids(prior), Secrets(prior), e, id);
    }
  }

  /** Once a link is dead, no continuation of the run ever signs anybody in with it. */
  lemma {:induction false} DeadForever(es: seq<Event>, k: nat, secret: Secret, session: Secret, newcomer: User,
                                       now: Time)
    requires Legal(es) && k <= |es| && Legal(es[..k]) && secret in Secrets(es[..k]) && DeadLink(After(es[..k]), secret)
    ensures secret in Secrets(es) && DeadLink(After(es), secret)
    ensures Confirmed(After(es), secret, session, newcomer, now).Refused?
    decreases |es|
  {
    hide Next, Enabled, DeadLink, Confirmed, Sound;
    if k == |es| {
      assert es[..k] == es;
    } else {
      var prior, e := es[..|es| - 1], es[|es| - 1];
      assert prior[..k] == es[..k];
      DeadForever(prior, k, secret, session, newcomer, now);
      RunSound(prior);
      DeadStaysDead(After(prior), Ids(prior), Secrets(prior), e, secret);
    }
    DeadLinkIsRefused(After(es), secret, session, newcomer, now);
  }

  // ----- Rate limits -----

  /** Every link a run ever issued, dropped or not. */
  ghost function Log(es: seq<Event>): map<Secret, LoginToken>
    requires Legal(es)
  {
    if es == [] then map[]
    else
      var prior, e := es[..|es| - 1], es[|es| - 1];
      Logged(Log(prior), After(prior), e)
  }

  ghost function Logged(log: map<Secret, LoginToken>, s: State, e: Event): map<Secret, LoginToken> {
    if e.Issue? && Result(s, e).Committed?
    then log[e.secret := LoginToken(e.email, e.address, e.invite, e.at, false)] else log
  }

  /** The links issued to an address, or from a network address, in the window that ends at a given time. */
  function SpanTo(log: map<Secret, LoginToken>, email: Email, end: Time): set<Secret> {
    set t | t in log && log[t].email == email && end - WINDOW < log[t].created <= end
  }

  function SpanFrom(log: map<Secret, LoginToken>, address: string, end: Time): set<Secret> {
    set t | t in log && log[t].address == address && end - WINDOW < log[t].created <= end
  }

  ghost predicate Limited(log: map<Secret, LoginToken>) {
    && (forall email, end :: |SpanTo(log, email, end)| <= EMAIL_LIMIT)
    && (forall address, end :: |SpanFrom(log, address, end)| <= ADDRESS_LIMIT)
  }

  /** Whatever was dropped is too old to count, so the table still shows every recent link. */
  predicate Remembers(s: State, log: map<Secret, LoginToken>, now: Time) {
    && (forall t <- s.tokens :: t in log && log[t].email == s.tokens[t].email && log[t].address == s.tokens[t].address
                                && log[t].created == s.tokens[t].created)
    && (forall t <- log :: log[t].created <= now && (log[t].created > now - WINDOW ==> t in s.tokens))
  }

  /** The same links, whatever became of their invitations. */
  predicate SameLinks(a: map<Secret, LoginToken>, b: map<Secret, LoginToken>) {
    a.Keys == b.Keys &&
    forall t <- a :: a[t].email == b[t].email && a[t].address == b[t].address && a[t].created == b[t].created
  }

  lemma LinksStay(s: State, e: Event)
    requires !e.Issue? && !e.Drop?
    ensures SameLinks(s.tokens, Next(s, e).tokens)
  {
    hide UserOf;
  }

  lemma RemembersStep(s: State, ids: set<InviteId>, secrets: set<Secret>, e: Event, log: map<Secret, LoginToken>,
                      now: Time)
    requires Remembers(s, log, now) && now <= e.at && log.Keys <= secrets && Enabled(s, ids, secrets, e)
    ensures Remembers(Next(s, e), Logged(log, s, e), e.at)
    ensures Logged(log, s, e).Keys <= secrets + Secrets([e])
  {
    assert [e][..0] == [];
    if !e.Issue? && !e.Drop? {
      hide Next, Remembers, SameLinks, Enabled;
      LinksStay(s, e);
      StillRemembers(s, Next(s, e), log, now, e.at);
    } else if e.Issue? {
      hide RecentTo, RecentFrom;
    }
  }

  lemma StillRemembers(s: State, t: State, log: map<Secret, LoginToken>, now: Time, at: Time)
    requires Remembers(s, log, now) && now <= at && SameLinks(s.tokens, t.tokens)
    ensures Remembers(t, log, at)
  {
  }

  lemma SpanGrows(log: map<Secret, LoginToken>, secret: Secret, t: LoginToken, email: Email, address: string, end: Time)
    requires secret !in log
    ensures var after := log[secret := t];
            && (t.email != email || end < t.created ==> SpanTo(after, email, end) == SpanTo(log, email, end))
            && SpanTo(after, email, end) <= SpanTo(log, email, end) + {secret}
            && (t.address != address || end < t.created ==>
                SpanFrom(after, address, end) == SpanFrom(log, address, end))
            && SpanFrom(after, address, end) <= SpanFrom(log, address, end) + {secret}
  {
  }

  lemma Fewer<T>(a: set<T>, b: set<T>)
    requires a <= b
    ensures |a| <= |b|
  {
    assert b == a + (b - a);
  }

  /** A later window than the one counted holds no more of the links known so far. */
  lemma RecentCovers(s: State, log: map<Secret, LoginToken>, now: Time, at: Time, email: Email, address: string,
                     end: Time)
    requires Remembers(s, log, now) && now <= at <= end
    ensures |SpanTo(log, email, end)| <= |RecentTo(s.tokens, email, at)|
    ensures |SpanFrom(log, address, end)| <= |RecentFrom(s.tokens, address, at)|
  {
    Fewer(SpanTo(log, email, end), RecentTo(s.tokens, email, at));
    Fewer(SpanFrom(log, address, end), RecentFrom(s.tokens, address, at));
  }

  lemma LimitedStep(s: State, ids: set<InviteId>, secrets: set<Secret>, e: Event, log: map<Secret, LoginToken>,
                    now: Time)
    requires Remembers(s, log, now) && Limited(log) && now <= e.at && log.Keys <= secrets && Enabled(s, ids, secrets, e)
    ensures Limited(Logged(log, s, e))
  {
    hide SpanTo, SpanFrom, Remembers, RecentTo, RecentFrom;
    if e.Issue? && Result(s, e).Committed? {
      var t := LoginToken(e.email, e.address, e.invite, e.at, false);
      var after := log[e.secret := t];
      forall email, end | true ensures |SpanTo(after, email, end)| <= EMAIL_LIMIT {
        SpanGrows(log, e.secret, t, email, "", end);
        if email == e.email && end >= e.at {
          RecentCovers(s, log, now, e.at, email, "", end);
          Fewer(SpanTo(after, email, end), SpanTo(log, email, end) + {e.secret});
        }
      }
      forall address, end | true ensures |SpanFrom(after, address, end)| <= ADDRESS_LIMIT {
        SpanGrows(log, e.secret, t, "", address, end);
        if address == e.address && end >= e.at {
          RecentCovers(s, log, now, e.at, "", address, end);
          Fewer(SpanFrom(after, address, end), SpanFrom(log, address, end) + {e.secret});
        }
      }
    }
  }

  lemma EmptyLimited()
    ensures Limited(map[])
  {
    forall email, end | true ensures |SpanTo(map[], email, end)| <= EMAIL_LIMIT {
      assert SpanTo(map[], email, end) == {};
    }
    forall address, end | true ensures |SpanFrom(map[], address, end)| <= ADDRESS_LIMIT {
      assert SpanFrom(map[], address, end) == {};
    }
  }

  /**
   * In no fifteen minutes of any run are more than five links sent to one address, or twenty to one network address.
   */
  lemma {:induction false} LimitsHold(es: seq<Event>)
    requires Legal(es)
    ensures Limited(Log(es)) && Log(es).Keys <= Secrets(es)
    ensures es != [] ==> Remembers(After(es), Log(es), Clock(es))
    ensures es == [] ==> Log(es) == map[]
  {
    if es == [] {
      EmptyLimited();
    } else {
      hide Next, Enabled, Limited, Logged, Remembers;
      var prior, e := es[..|es| - 1], es[|es| - 1];
      LimitsHold(prior);
      KeysGrow(es);
      if prior == [] {
        FirstRemembers(e);
        RemembersStep(EMPTY, {}, {}, e, map[], e.at);
        LimitedStep(EMPTY, {}, {}, e, map[], e.at);
      } else {
        RemembersStep(After(prior), Ids(prior), Secrets(prior), e, Log(prior), Clock(prior));
        LimitedStep(After(prior), Ids(prior), Secrets(prior), e, Log(prior), Clock(prior));
      }
    }
  }

  lemma FirstRemembers(e: Event)
    ensures Remembers(EMPTY, map[], e.at)
  {
  }

  // ----- What the log says about invitations -----

  /** How an invitation was made: by inviting an address, or by replacing the invitation it had. */
  datatype Making = Making(workspace: Workspace, email: Email, role: Role, at: Time)

  ghost function Made(es: seq<Event>): map<InviteId, Making>
    requires Legal(es)
  {
    if es == [] then map[] else MadeBy(Made(es[..|es| - 1]), After(es[..|es| - 1]), es[|es| - 1])
  }

  ghost function MadeBy(made: map<InviteId, Making>, s: State, e: Event): map<InviteId, Making> {
    match e
    case Create(id, w, email, role, at) => made[id := Making(w, email, role, at)]
    case Replace(w, previous, id, role, at) =>
      if Result(s, e).Committed? && previous in made then
        made[id := Making(w, made[previous].email, if role == "" then made[previous].role else role, at)]
      else made
    case _ => made
  }

  /** The event makes the invitation. */
  ghost predicate Makes(s: State, e: Event, id: InviteId) {
    (e.Create? && e.id == id) || (e.Replace? && e.id == id && Result(s, e).Committed?)
  }

  /** The event takes an invitation made so off the table. */
  predicate Removes(e: Event, id: InviteId, m: Making) {
    (e.DeleteInvites? && id in e.gone) || (e.DeleteWorkspace? && e.workspace == m.workspace)
  }

  /**
   * The event closes an open invitation made so: it is revoked or replaced by its organisation, its address is
   * invited again, it is accepted, directly or by a link that was sent for it, or it is deleted.
   */
  ghost predicate Closes(s: State, log: map<Secret, LoginToken>, e: Event, id: InviteId, m: Making) {
    || (e.Revoke? && e.id == id && e.workspace == m.workspace)
    || (e.Replace? && e.previous == id && e.workspace == m.workspace)
    || (e.Create? && e.workspace == m.workspace && e.email == m.email)
    || (e.Accept? && e.id == id && Result(s, e).Committed?)
    || (e.Confirm? && e.secret in log && log[e.secret].invite == Some(id) && Result(s, e).Committed?)
    || Removes(e, id, m)
  }

  /** The invitation was made, and nothing closed it since. */
  ghost predicate Standing(es: seq<Event>, id: InviteId)
    requires Legal(es)
  {
    es != [] &&
    var prior, e := es[..|es| - 1], es[|es| - 1];
    || Makes(After(prior), e, id)
    || (Standing(prior, id) && id in Made(prior) && !Closes(After(prior), Log(prior), e, id, Made(prior)[id]))
  }

  /** The invitation was made, and not deleted since. */
  ghost predicate Kept(es: seq<Event>, id: InviteId)
    requires Legal(es)
  {
    es != [] &&
    var prior, e := es[..|es| - 1], es[|es| - 1];
    || Makes(After(prior), e, id)
    || (Kept(prior, id) && id in Made(prior) && !Removes(e, id, Made(prior)[id]))
  }

  /** The link was used to sign in. */
  ghost predicate Used(es: seq<Event>, secret: Secret)
    requires Legal(es)
  {
    es != [] &&
    var prior, e := es[..|es| - 1], es[|es| - 1];
    Used(prior, secret) || (e.Confirm? && e.secret == secret && Result(After(prior), e).Committed?)
  }

  /** A row says how its invitation was made; it is open exactly while the invitation stands. */
  ghost predicate InviteTold(row: Invite, m: Making, standing: bool) {
    && row.workspace == m.workspace && row.email == m.email && row.role == m.role
    && row.expires == m.at + 604_800_000_000
    && (standing <==> !row.accepted && !row.revoked)
  }

  /** The table says of one invitation what the log says. */
  ghost predicate Told(s: State, made: map<InviteId, Making>, id: InviteId, standing: bool, kept: bool) {
    && (id in s.invites <==> kept) && (standing ==> kept)
    && (id in s.invites ==> id in made && InviteTold(s.invites[id], made[id], standing))
  }

  ghost predicate InvitesTold(s: State, made: map<InviteId, Making>, standing: InviteId -> bool,
                              kept: InviteId -> bool)
  {
    forall id :: Told(s, made, id, standing(id), kept(id))
  }

  /**
   * A link's row says how it was sent; it is spent only by being used or by the end of its invitation, of which
   * `standing` speaks.
   */
  predicate LinkTold(row: LoginToken, sent: LoginToken, standing: bool, used: bool) {
    && row.email == sent.email && row.address == sent.address && row.created == sent.created
    && (row.invite != sent.invite ==> row.consumed)
    && (used ==> row.consumed)
    && (row.consumed ==> used || (sent.invite.Some? && !standing))
  }

  predicate LinkKnown(s: State, log: map<Secret, LoginToken>, t: Secret, standing: bool, used: bool) {
    t in s.tokens ==> t in log && LinkTold(s.tokens[t], log[t], standing, used)
  }

  ghost predicate Stands(s: State, made: map<InviteId, Making>, log: map<Secret, LoginToken>, e: Event, id: InviteId,
                         standing: bool)
  {
    Makes(s, e, id) || (standing && id in made && !Closes(s, log, e, id, made[id]))
  }

  ghost predicate Stays(s: State, made: map<InviteId, Making>, e: Event, id: InviteId, kept: bool) {
    Makes(s, e, id) || (kept && id in made && !Removes(e, id, made[id]))
  }

  /** Inviting and replacing. */
  lemma MakingTold(s: State, e: Event, made: map<InviteId, Making>, log: map<Secret, LoginToken>, id: InviteId,
                   standing: bool, kept: bool)
    requires Told(s, made, id, standing, kept) && (e.Create? || e.Replace?)
    requires e.id !in s.invites && e.id !in made
    requires e.Replace? && e.previous in s.invites ==>
               && e.previous in made && s.invites[e.previous].email == made[e.previous].email
               && s.invites[e.previous].role == made[e.previous].role
    ensures Told(Next(s, e), MadeBy(made, s, e), id, Stands(s, made, log, e, id, standing), Stays(s, made, e, id, kept))
  {
  }

  /** Accepting, also by confirming a link. */
  lemma AcceptingTold(s: State, e: Event, made: map<InviteId, Making>, log: map<Secret, LoginToken>, id: InviteId,
                      standing: bool, kept: bool)
    requires Told(s, made, id, standing, kept) && (e.Accept? || e.Confirm?)
    requires e.Confirm? && e.secret in s.tokens && !s.tokens[e.secret].consumed ==>
               e.secret in log && s.tokens[e.secret].invite == log[e.secret].invite
    ensures Told(Next(s, e), MadeBy(made, s, e), id, Stands(s, made, log, e, id, standing), Stays(s, made, e, id, kept))
  {
    hide UserOf;
  }

  /** Every other event. */
  lemma OtherTold(s: State, e: Event, made: map<InviteId, Making>, log: map<Secret, LoginToken>, id: InviteId,
                  standing: bool, kept: bool)
    requires Told(s, made, id, standing, kept) && !(e.Create? || e.Replace? || e.Accept? || e.Confirm?)
    ensures Told(Next(s, e), MadeBy(made, s, e), id, Stands(s, made, log, e, id, standing), Stays(s, made, e, id, kept))
  {
    hide RecentTo, RecentFrom;
  }

  ghost predicate Uses(s: State, e: Event, secret: Secret) {
    e.Confirm? && e.secret == secret && Result(s, e).Committed?
  }

  /** What one event does to a link's row, it does to what the log says of it. */
  lemma LinkKnownStep(s: State, e: Event, made: map<InviteId, Making>, log: map<Secret, LoginToken>, t: Secret,
                      id: InviteId, standing: bool, kept: bool, used: bool)
    requires LinkKnown(s, log, t, standing, used) && Told(s, made, id, standing, kept)
    requires t in log && log[t].invite.Some? ==> log[t].invite.value == id
    requires e.Issue? ==> e.secret !in log && e.secret !in s.tokens && (e.secret == t ==> !used)
    requires (e.Create? || e.Replace?) ==>
              e.id !in s.invites && e.id !in made && (t in log ==> log[t].invite != Some(e.id))
    ensures LinkKnown(Next(s, e), Logged(log, s, e), t, Stands(s, made, log, e, id, standing), used || Uses(s, e, t))
  {
    hide UserOf, RecentTo, RecentFrom;
  }

  /** The keys the log speaks of are those the run handed out. */
  ghost predicate Keyed(es: seq<Event>)
    requires Legal(es)
  {
    && Made(es).Keys <= Ids(es) && Log(es).Keys <= Secrets(es)
    && (forall t <- Log(es) :: Log(es)[t].invite.Some? ==> Log(es)[t].invite.value in Ids(es))
    && (forall t :: Used(es, t) ==> t in Secrets(es))
  }

  lemma KeyedStep(es: seq<Event>)
    requires es != [] && Legal(es) && Keyed(es[..|es| - 1])
    requires After(es[..|es| - 1]).invites.Keys <= Ids(es[..|es| - 1])
    requires After(es[..|es| - 1]).tokens.Keys <= Secrets(es[..|es| - 1])
    ensures Keyed(es)
  {
    hide UserOf, RecentTo, RecentFrom, Accepted, Created, Revoked, After, Legal, Enabled;
  }

  /** The standing of the invitation a link was sent for. */
  ghost predicate SentStanding(es: seq<Event>, t: Secret)
    requires Legal(es)
  {
    t in Log(es) && Log(es)[t].invite.Some? && Standing(es, Log(es)[t].invite.value)
  }

  /**
   * In every run the log says what the tables hold: which invitations are open, which are on the table, and which
   * links are spent.
   */
  lemma {:induction false} RowsFollowLog(es: seq<Event>)
    requires Legal(es)
    ensures Keyed(es)
    ensures forall id :: Told(After(es), Made(es), id, Standing(es, id), Kept(es, id))
    ensures forall t :: LinkKnown(After(es), Log(es), t, SentStanding(es, t), Used(es, t))
  {
    if es != [] {
      hide Next, Enabled, Told, LinkKnown, Keyed, Stands, Stays, MadeBy, Logged, Uses;
      var prior, e := es[..|es| - 1], es[|es| - 1];
      RowsFollowLog(prior);
      RunSound(prior);
      KeyedStep(es);
      forall id | true ensures Told(After(es), Made(es), id, Standing(es, id), Kept(es, id)) {
        InviteFollows(prior, e, id);
        StandingStep(es, id);
      }
      forall t | true ensures LinkKnown(After(es), Log(es), t, SentStanding(es, t), Used(es, t)) {
        LinkFollows(prior, e, t);
        LinkStep(es, t);
      }
    }
  }

  lemma StandingStep(es: seq<Event>, id: InviteId)
    requires es != [] && Legal(es)
    ensures var prior, e := es[..|es| - 1], es[|es| - 1];
            && (Standing(es, id) <==> Stands(After(prior), Made(prior), Log(prior), e, id, Standing(prior, id)))
            && (Kept(es, id) <==> Stays(After(prior), Made(prior), e, id, Kept(prior, id)))
            && After(es) == Next(After(prior), e) && Made(es) == MadeBy(Made(prior), After(prior), e)
  {
    hide Next, Closes, Removes, Makes, MadeBy;
  }

  /** What the log knows of an invitation and the link sent for it. */
  lemma LinkStep(es: seq<Event>, t: Secret)
    requires es != [] && Legal(es)
    ensures var prior, e := es[..|es| - 1], es[|es| - 1];
            && Log(es) == Logged(Log(prior), After(prior), e) && After(es) == Next(After(prior), e)
            && (Used(es, t) <==> Used(prior, t) || Uses(After(prior), e, t))
  {
    hide Next, Logged;
  }

  lemma InviteFollows(prior: seq<Event>, e: Event, id: InviteId)
    requires Legal(prior) && Keyed(prior) && Enabled(After(prior), Ids(prior), Secrets(prior), e)
    requires Sound(After(prior)) && After(prior).invites.Keys <= Ids(prior)
    requires forall id :: Told(After(prior), Made(prior), id, Standing(prior, id), Kept(prior, id))
    requires forall t :: LinkKnown(After(prior), Log(prior), t, SentStanding(prior, t), Used(prior, t))
    ensures Told(Next(After(prior), e), MadeBy(Made(prior), After(prior), e), id,
                 Stands(After(prior), Made(prior), Log(prior), e, id, Standing(prior, id)),
                 Stays(After(prior), Made(prior), e, id, Kept(prior, id)))
  {
    hide Next, MadeBy, Stands, Stays, After, Made, Log, Standing, Kept, Used, SentStanding, Sound, Legal;
    var s, made, log := After(prior), Made(prior), Log(prior);
    if e.Create? || e.Replace? {
      if e.Replace? {
        assert Told(s, made, e.previous, Standing(prior, e.previous), Kept(prior, e.previous));
      }
      MakingTold(s, e, made, log, id, Standing(prior, id), Kept(prior, id));
    } else if e.Accept? || e.Confirm? {
      if e.Confirm? {
        assert LinkKnown(s, log, e.secret, SentStanding(prior, e.secret), Used(prior, e.secret));
      }
      AcceptingTold(s, e, made, log, id, Standing(prior, id), Kept(prior, id));
    } else {
      OtherTold(s, e, made, log, id, Standing(prior, id), Kept(prior, id));
    }
  }

  lemma LinkFollows(prior: seq<Event>, e: Event, t: Secret)
    requires Legal(prior) && Keyed(prior) && Legal(prior + [e])
    requires After(prior).invites.Keys <= Ids(prior) && After(prior).tokens.Keys <= Secrets(prior)
    requires forall id :: Told(After(prior), Made(prior), id, Standing(prior, id), Kept(prior, id))
    requires forall t :: LinkKnown(After(prior), Log(prior), t, SentStanding(prior, t), Used(prior, t))
    ensures LinkKnown(After(prior + [e]), Log(prior + [e]), t, SentStanding(prior + [e], t), Used(prior + [e], t))
  {
    hide Next, MadeBy, Stands, Stays, After, Made, Standing, Kept, Used, Legal, Told, LinkKnown, Uses, Logged, Log,
      Keyed;
    var es := prior + [e];
    assert es[..|es| - 1] == prior;
    var s, made, log := After(prior), Made(prior), Log(prior);
    var id := if t in Log(es) && Log(es)[t].invite.Some? then Log(es)[t].invite.value else 0;
    FreshKeys(prior, e, t);
    LinkStep(es, t);
    StandingStep(es, id);
    SentStandingIs(prior, t, id);
    Indifferent(s, log, t, SentStanding(prior, t), Standing(prior, id), Used(prior, t));
    LinkKnownStep(s, e, made, log, t, id, Standing(prior, id), Kept(prior, id), Used(prior, t));
    SentStandingIs(es, t, id);
    Indifferent(After(es), Log(es), t, Standing(es, id), SentStanding(es, t), Used(es, t));
  }

  /** The keys of an event that may happen next are new to the log. */
  lemma FreshKeys(prior: seq<Event>, e: Event, t: Secret)
    requires Legal(prior) && Keyed(prior) && Legal(prior + [e])
    requires After(prior).invites.Keys <= Ids(prior) && After(prior).tokens.Keys <= Secrets(prior)
    ensures e.Issue? ==>
              e.secret !in Log(prior) && e.secret !in After(prior).tokens && (e.secret == t ==> !Used(prior, t))
    ensures (e.Create? || e.Replace?) ==>
              && e.id !in After(prior).invites && e.id !in Made(prior)
              && (t in Log(prior) ==> Log(prior)[t].invite != Some(e.id))
    ensures t in Log(prior) ==> t in Log(prior + [e]) && Log(prior + [e])[t] == Log(prior)[t]
  {
    hide Next, After, Made, Used;
    var es := prior + [e];
    assert es[..|es| - 1] == prior;
    assert Enabled(After(prior), Ids(prior), Secrets(prior), e);
  }

  /** The standing of an invitation matters only to a link sent for it. */
  lemma Indifferent(s: State, log: map<Secret, LoginToken>, t: Secret, a: bool, b: bool, used: bool)
    requires LinkKnown(s, log, t, a, used) && (t in log && log[t].invite.Some? ==> (a <==> b))
    ensures LinkKnown(s, log, t, b, used)
  {
  }

  lemma SentStandingIs(es: seq<Event>, t: Secret, id: InviteId)
    requires Legal(es) && (t in Log(es) && Log(es)[t].invite.Some? ==> Log(es)[t].invite.value == id)
    ensures SentStanding(es, t) <==> t in Log(es) && Log(es)[t].invite.Some? && Standing(es, id)
  {
  }

  // ----- Exactly what each transaction answers, from the log alone -----

  /** The invitation stands, and was made less than seven days ago. */
  ghost predicate Acceptable(es: seq<Event>, id: InviteId, now: Time)
    requires Legal(es)
  {
    Standing(es, id) && id in Made(es) && now < Made(es)[id].at + 604_800_000_000
  }

  /** The row of an invitation that can be accepted. */
  lemma AcceptableRow(es: seq<Event>, id: InviteId, now: Time)
    requires Legal(es)
    ensures Acceptable(es, id, now) <==>
            && id in After(es).invites && !After(es).invites[id].accepted && !After(es).invites[id].revoked
            && now < After(es).invites[id].expires
    ensures id in After(es).invites ==>
              && id in Made(es) && After(es).invites[id].email == Made(es)[id].email
              && After(es).invites[id].workspace == Made(es)[id].workspace
              && After(es).invites[id].role == Made(es)[id].role
  {
    hide Legal, After, Made, Standing, LinkKnown;
    RowsFollowLog(es);
    assert Told(After(es), Made(es), id, Standing(es, id), Kept(es, id));
  }

  /** The person is a member after the event, in the role they had or else the one they were invited to. */
  predicate JoinedAs(before: State, after: State, u: User, m: Making) {
    && (m.workspace, u) in after.members
    && after.members[(m.workspace, u)] ==
       (if (m.workspace, u) in before.members then before.members[(m.workspace, u)] else m.role)
  }

  /**
   * An invitation is accepted exactly while it stands, within seven days, by the person it was sent to, who then is a
   * member.
   */
  lemma AcceptExactly(es: seq<Event>)
    requires es != [] && Legal(es) && es[|es| - 1].Accept?
    ensures var prior, e := es[..|es| - 1], es[|es| - 1];
            && (Result(After(prior), e).Committed? <==>
                && Acceptable(prior, e.id, e.at)
                && e.user in After(prior).users && After(prior).users[e.user] == Made(prior)[e.id].email)
            && (Result(After(prior), e).Committed? ==>
                e.id in Made(prior) && JoinedAs(After(prior), After(es), e.user, Made(prior)[e.id]))
  {
    hide Acceptable, Made, Standing;
    AcceptableRow(es[..|es| - 1], es[|es| - 1].id, es[|es| - 1].at);
    assert Acceptable(es[..|es| - 1], es[|es| - 1].id, es[|es| - 1].at) ==> es[|es| - 1].id in Made(es[..|es| - 1]);
  }

  /** The link was issued less than fifteen minutes ago and has not been used. */
  ghost predicate Fresh(es: seq<Event>, secret: Secret, now: Time)
    requires Legal(es)
  {
    secret in Log(es) && now < Log(es)[secret].created + 900_000_000 && !Used(es, secret)
  }

  /** The link may still sign somebody in: it is fresh, and an invitation it was sent for can still be accepted. */
  ghost predicate Redeemable(es: seq<Event>, secret: Secret, now: Time)
    requires Legal(es)
  {
    && Fresh(es, secret, now)
    && match Log(es)[secret].invite
       case None => true
       case Some(id) => Acceptable(es, id, now) && Made(es)[id].email == Log(es)[secret].email
  }

  /** The row of a link that may still sign somebody in. */
  lemma RedeemableRow(es: seq<Event>, secret: Secret, now: Time)
    requires Legal(es) && (es == [] || Clock(es) <= now)
    ensures Redeemable(es, secret, now) <==>
            && secret in After(es).tokens && !After(es).tokens[secret].consumed
            && now < After(es).tokens[secret].created + 900_000_000
            && match After(es).tokens[secret].invite
               case None => true
               case Some(id) => Acceptable(es, id, now) && Made(es)[id].email == After(es).tokens[secret].email
    ensures secret in After(es).tokens ==> secret in Log(es) && After(es).tokens[secret].email == Log(es)[secret].email
    ensures secret in After(es).tokens && !After(es).tokens[secret].consumed ==>
              After(es).tokens[secret].invite == Log(es)[secret].invite
  {
    hide Legal, After, Made, Standing, Told, Used, Log, Acceptable;
    RowsFollowLog(es);
    LimitsHold(es);
    assert LinkKnown(After(es), Log(es), secret, SentStanding(es, secret), Used(es, secret));
    AcceptableStands(es, secret, now);
  }

  lemma AcceptableStands(es: seq<Event>, secret: Secret, now: Time)
    requires Legal(es)
    ensures secret in Log(es) && Log(es)[secret].invite.Some? && Acceptable(es, Log(es)[secret].invite.value, now) ==>
              SentStanding(es, secret)
  {
  }

  /**
   * A link signs somebody in exactly within fifteen minutes of being sent, once, and while the invitation it was
   * sent for, if any, can be accepted: then one session opens, for the user with the address it was sent to, an
   * existing one if there is one, who is a member of the inviting organisation.
   */
  lemma ConfirmExactly(es: seq<Event>)
    requires es != [] && Legal(es) && es[|es| - 1].Confirm?
    ensures var prior, e := es[..|es| - 1], es[|es| - 1];
            && (Result(After(prior), e).Committed? <==> Redeemable(prior, e.secret, e.at))
            && (Result(After(prior), e).Committed? ==>
                e.secret in Log(prior) && SignedIn(After(prior), After(es), e, Log(prior)[e.secret].email)
                && (Log(prior)[e.secret].invite.Some? ==>
                    var id := Log(prior)[e.secret].invite.value;
                    id in Made(prior) && JoinedAs(After(prior), After(es), After(es).sessions[e.session],
                                                  Made(prior)[id])))
  {
    hide Acceptable, Made, Standing, Log, UserOf, Legal, Accepted;
    var prior, e := es[..|es| - 1], es[|es| - 1];
    LegalClock(es);
    var s := After(prior);
    RunSound(prior);
    RedeemableRow(prior, e.secret, e.at);
    if e.secret in s.tokens && !s.tokens[e.secret].consumed {
      var t := s.tokens[e.secret];
      UserOfIsOne(s.users, t.email, e.user);
      HolderFound(s.users, t.email, e.user);
      if t.invite.Some? {
        AcceptableRow(prior, t.invite.value, e.at);
        var u := UserOf(s.users, t.email, e.user);
        AcceptedIs(s.(tokens := s.tokens[e.secret := t.(consumed := true)], users := s.users[u := t.email]),
                   t.invite.value, u, e.at);
      }
    }
  }

  /**
   * One more session, for a user with the address; nobody else's is touched, and no known address gets a second user.
   */
  ghost predicate SignedIn(before: State, after: State, e: Event, email: Email)
    requires e.Confirm?
  {
    && e.session in after.sessions && after.sessions == before.sessions[e.session := after.sessions[e.session]]
    && var u := after.sessions[e.session];
    && after.users == before.users[u := email] && (u in before.users ==> before.users[u] == email)
    && (if exists v <- before.users :: before.users[v] == email then u in before.users else u == e.user)
  }

  lemma HolderFound(users: map<User, Email>, email: Email, newcomer: User)
    ensures var u := UserOf(users, email, newcomer);
            if exists v <- users :: users[v] == email then u in users && users[u] == email else u == newcomer
  {
  }

  lemma LegalClock(es: seq<Event>)
    requires es != [] && Legal(es)
    ensures Legal(es[..|es| - 1])
    ensures es[..|es| - 1] == [] || Clock(es[..|es| - 1]) <= es[|es| - 1].at
    ensures Enabled(After(es[..|es| - 1]), Ids(es[..|es| - 1]), Secrets(es[..|es| - 1]), es[|es| - 1])
    ensures After(es) == Next(After(es[..|es| - 1]), es[|es| - 1])
  {
    hide Next, Enabled;
  }

  lemma AcceptedIs(s: State, id: InviteId, u: User, now: Time)
    requires u in s.users
    ensures Accepted(s, id, u, now).Committed? <==>
            && id in s.invites && !s.invites[id].accepted && !s.invites[id].revoked && now < s.invites[id].expires
            && s.users[u] == s.invites[id].email
    ensures Accepted(s, id, u, now).Committed? ==>
              var t, i := Accepted(s, id, u, now).state, s.invites[id];
              && t.users == s.users && t.sessions == s.sessions && t.tokens == s.tokens
              && (i.workspace, u) in t.members
              && t.members[(i.workspace, u)] ==
                 (if (i.workspace, u) in s.members then s.members[(i.workspace, u)] else i.role)
  {
  }

  /** From fifteen minutes after it was sent, no continuation of the run signs anybody in with a link. */
  lemma ExpiredForever(es: seq<Event>, k: nat, secret: Secret)
    requires Legal(es) && k < |es| && es[k].Confirm? && es[k].secret == secret && Legal(es[..k])
    requires exists j | 0 <= j < k :: es[j].Issue? && es[j].secret == secret && es[k].at >= es[j].at + 900_000_000
    ensures Result(After(es[..k]), es[k]).Refused?
  {
    hide Result, After, Log, Made, Standing, Used;
    LegalPrefix(es, k + 1);
    assert es[..k + 1][..k] == es[..k];
    ConfirmExactly(es[..k + 1]);
    var j :| 0 <= j < k && es[j].Issue? && es[j].secret == secret && es[k].at >= es[j].at + 900_000_000;
    IssuedOnce(es[..k], j);
    assert es[..k][j] == es[j];
  }

  lemma {:induction false} LegalPrefix(es: seq<Event>, k: nat)
    requires Legal(es) && k <= |es|
    ensures Legal(es[..k])
  {
    hide After, Enabled;
    if k == |es| {
      assert es[..k] == es;
    } else {
      LegalPrefix(es[..|es| - 1], k);
      assert es[..|es| - 1][..k] == es[..k];
    }
  }

  /** A secret is drawn once, so the log holds the time of the only event that issued it. */
  lemma {:induction false} IssuedOnce(es: seq<Event>, j: nat)
    requires Legal(es) && j < |es| && es[j].Issue?
    ensures es[j].secret in Secrets(es)
    ensures es[j].secret in Log(es) ==> Log(es)[es[j].secret].created == es[j].at
  {
    hide After, Result;
    var prior, e := es[..|es| - 1], es[|es| - 1];
    assert Enabled(After(prior), Ids(prior), Secrets(prior), e);
    LimitsHold(prior);
    if j < |es| - 1 {
      IssuedOnce(prior, j);
      assert prior[j] == es[j];
    }
  }

  /**
   * A link is refused exactly if it is to carry both an invitation and a continuation, if its invitation is gone, or at
   * a limit.
   */
  lemma IssueExactly(es: seq<Event>)
    requires es != [] && Legal(es) && es[|es| - 1].Issue?
    ensures var prior, e := es[..|es| - 1], es[|es| - 1];
            Result(After(prior), e).Committed? <==>
            && !(e.invite.Some? && e.returning) && (e.invite.Some? ==> Kept(prior, e.invite.value))
            && |SpanTo(Log(prior), e.email, e.at)| < 5 && |SpanFrom(Log(prior), e.address, e.at)| < 20
  {
    hide Legal, After, Log, Made, Kept, SpanTo, SpanFrom, RecentTo, RecentFrom, LinkKnown;
    var prior, e := es[..|es| - 1], es[|es| - 1];
    LegalClock(es);
    RowsFollowLog(prior);
    LimitsHold(prior);
    RecentIsSpan(prior, e.email, e.address, e.at);
    if e.invite.Some? {
      assert Told(After(prior), Made(prior), e.invite.value, Standing(prior, e.invite.value),
                  Kept(prior, e.invite.value));
    }
  }

  lemma RecentIsSpan(es: seq<Event>, email: Email, address: string, now: Time)
    requires Legal(es) && (es == [] || Clock(es) <= now)
    requires es != [] ==> Remembers(After(es), Log(es), Clock(es))
    requires es == [] ==> Log(es) == map[]
    ensures RecentTo(After(es).tokens, email, now) == SpanTo(Log(es), email, now)
    ensures RecentFrom(After(es).tokens, address, now) == SpanFrom(Log(es), address, now)
  {
    hide Legal, Log;
    if es != [] {
      hide After;
    }
  }

  /** Revoking and replacing succeed exactly on a standing invitation of the organisation. */
  lemma RevokeExactly(es: seq<Event>)
    requires es != [] && Legal(es) && (es[|es| - 1].Revoke? || es[|es| - 1].Replace?)
    ensures var prior, e := es[..|es| - 1], es[|es| - 1];
            var id := if e.Revoke? then e.id else e.previous;
            Result(After(prior), e).Committed? <==>
            Standing(prior, id) && id in Made(prior) && Made(prior)[id].workspace == e.workspace
  {
    hide Legal, After, Log, Made, Kept, Standing, LinkKnown;
    var prior, e := es[..|es| - 1], es[|es| - 1];
    var id := if e.Revoke? then e.id else e.previous;
    LegalClock(es);
    RowsFollowLog(prior);
    assert Told(After(prior), Made(prior), id, Standing(prior, id), Kept(prior, id));
  }

  /** What an event does not name it leaves alone. */
  lemma StepFrame(s: State, e: Event)
    ensures !e.Confirm? ==> Next(s, e).users == s.users
    ensures !e.Confirm? ==> Next(s, e).sessions == if e.Drop? then s.sessions - e.sessions else s.sessions
    ensures !(e.Accept? || e.Confirm?) ==>
              forall m ::
                !(e.SetMember? && m == (e.workspace, e.user)) && !(e.DeleteWorkspace? && m.0 == e.workspace) ==>
                (m in Next(s, e).members <==> m in s.members)
                && (m in s.members ==> Next(s, e).members[m] == s.members[m])
    ensures forall t <- s.tokens :: t in Next(s, e).tokens || (e.Drop? && t in e.secrets)
  {
    hide UserOf, RecentTo, RecentFrom;
  }

  // ----- The store -----

  ghost predicate Ends(o: Outcome, before: State, after: State, error: Option<Error>) {
    match o
    case Committed(t) => after == t && error.None?
    case Refused(e) => after == before && error == Some(e)
  }

  class Store {
    var invites: map<InviteId, Invite>
    var tokens: map<Secret, LoginToken>
    var users: map<User, Email>
    var members: map<(Workspace, User), Role>
    var sessions: map<Secret, User>

    function Tables(): State
      reads this
    {
      State(invites, tokens, users, members, sessions)
    }

    constructor ()
      ensures Tables() == EMPTY
    {
      invites, tokens, users, members, sessions := map[], map[], map[], map[], map[];
    }

    method RevokeInvite(w: Workspace, id: InviteId) returns (error: Option<Error>)
      modifies this`invites, this`tokens
      ensures Ends(RevokedOne(old(Tables()), w, id), old(Tables()), Tables(), error)
    {
      if id !in invites || invites[id].workspace != w || !Pending(invites[id]) {
        return Some(NotFound);
      }
      invites := invites[id := invites[id].(revoked := true)];
      tokens := map t <- tokens :: if tokens[t].invite == Some(id) then tokens[t].(consumed := true) else tokens[t];
      assert invites == Revoked(old(Tables()), {id}).invites;
      assert tokens == Revoked(old(Tables()), {id}).tokens;
      return None;
    }

    method CreateInvite(id: InviteId, w: Workspace, email: Email, role: Role, admin: bool, now: Time)
      returns (error: Option<Error>)
      requires OneOpen(invites)
      modifies this`invites, this`tokens
      ensures !admin ==> error == Some(Forbidden) && Tables() == old(Tables())
      ensures admin ==> error.None? && Tables() == Created(old(Tables()), id, w, email, role, now)
    {
      hide Revoked;
      if !admin {
        return Some(Forbidden);
      }
      if previous :| previous in invites && PendingFor(invites[previous], w, email) {
        OnlyOpen(invites, w, email, previous);
        assert OpenFor(invites, w, email) == {previous};
        error := RevokeInvite(w, previous);
      } else {
        assert OpenFor(invites, w, email) == {};
        NoneRevoked(Tables());
      }
      invites := invites[id := Invite(w, email, role, now + INVITE_TTL, false, false)];
      return None;
    }

    method ReplaceInvite(w: Workspace, previous: InviteId, id: InviteId, role: Role, admin: bool, now: Time)
      returns (error: Option<Error>)
      modifies this`invites, this`tokens
      ensures !admin ==> error == Some(Forbidden) && Tables() == old(Tables())
      ensures admin ==> Ends(Replaced(old(Tables()), w, previous, id, role, now), old(Tables()), Tables(), error)
    {
      hide Revoked;
      if !admin {
        return Some(Forbidden);
      }
      if previous !in invites || invites[previous].workspace != w || !Pending(invites[previous]) {
        return Some(NotFound);
      }
      var email, granted := invites[previous].email, role;
      if granted == "" {
        granted := invites[previous].role;
      }
      error := RevokeInvite(w, previous);
      invites := invites[id := Invite(w, email, granted, now + INVITE_TTL, false, false)];
      return None;
    }

    method AcceptInvite(id: InviteId, u: User, now: Time) returns (error: Option<Error>)
      modifies this`invites, this`members
      ensures Ends(Accepted(old(Tables()), id, u, now), old(Tables()), Tables(), error)
    {
      if id !in invites || !Pending(invites[id]) || invites[id].expires <= now || u !in users {
        return Some(NotFound);
      }
      var i := invites[id];
      if users[u] != i.email {
        return Some(Forbidden);
      }
      if (i.workspace, u) !in members {
        members := members[(i.workspace, u) := i.role];
      }
      invites := invites[id := i.(accepted := true)];
      return None;
    }

    method IssueLoginToken(secret: Secret, email: Email, address: string, invite: Option<InviteId>, returning: bool,
                           now: Time)
      returns (error: Option<Error>)
      modifies this`tokens
      ensures Ends(Issued(old(Tables()), secret, email, address, invite, returning, now), old(Tables()), Tables(),
                   error)
    {
      if invite.Some? && returning {
        return Some(BadRequest);
      }
      if |RecentTo(tokens, email, now)| >= EMAIL_LIMIT {
        return Some(RateLimited);
      }
      if |RecentFrom(tokens, address, now)| >= ADDRESS_LIMIT {
        return Some(RateLimited);
      }
      if invite.Some? && invite.value !in invites {
        return Some(BadRequest);
      }
      tokens := tokens[secret := LoginToken(email, address, invite, now, false)];
      return None;
    }

    /** A refused invitation rolls back the consumed link and the new user. */
    method ConfirmLogin(secret: Secret, session: Secret, newcomer: User, now: Time) returns (error: Option<Error>)
      requires OneUser(users)
      modifies this
      ensures Ends(Confirmed(old(Tables()), secret, session, newcomer, now), old(Tables()), Tables(), error)
    {
      hide Accepted;
      if secret !in tokens || !Usable(tokens[secret], now) {
        return Some(NotFound);
      }
      var tokensBefore, usersBefore := tokens, users;
      var t := tokens[secret];
      tokens := tokens[secret := t.(consumed := true)];
      var u := newcomer;
      if known :| known in users && users[known] == t.email {
        u := known;
      }
      assert u == UserOf(users, t.email, newcomer);
      users := users[u := t.email];
      if t.invite.Some? {
        error := AcceptInvite(t.invite.value, u, now);
        if error.Some? {
          tokens, users := tokensBefore, usersBefore;
          return Some(NotFound);
        }
      }
      sessions := sessions[session := u];
      return None;
    }
  }

  lemma OnlyOpen(invites: map<InviteId, Invite>, w: Workspace, email: Email, id: InviteId)
    requires OneOpen(invites) && id in invites && PendingFor(invites[id], w, email)
    ensures forall i <- invites :: PendingFor(invites[i], w, email) ==> i == id
  {
    forall i <- invites | PendingFor(invites[i], w, email) ensures i == id {
      assert Rival(invites[i], invites[id]);
    }
  }

  lemma NoneRevoked(s: State)
    ensures Revoked(s, {}) == s
  {
  }
}
