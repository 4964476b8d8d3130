/**
 * Device sign-in and API keys. A device holds a secret and polls; a person approves its short code in a
 * browser; the first poll after the approval mints one key. Every method is one transaction.
 */
module DeviceFlow {
  import opened Bytes

  type User = nat
  type Project = nat
  type TokenId = nat
  type Secret = string
  type Time = int

  /** Microseconds. */
  const TTL: Time := 600_000_000
  const KEPT: Time := 3_600_000_000
  const LIMIT := 20

  datatype Kind = Personal | Setup | Desktop | Scoped
  datatype Flow = Init | Login | Manage | App
  datatype Status = Pending | Approved | Denied | Collected

  datatype Token = Token(user: User, name: string, secret: Secret, kind: Kind, parent: Option<TokenId>,
                         project: Option<Project>)

  datatype Session = Session(
    code: string, flow: Flow, status: Status, expires: Time, approver: Option<User>, project: Option<Project>,
    token: Option<TokenId>)

  /** Keys by id and sign-in sessions by the device's secret. */
  datatype State = State(tokens: map<TokenId, Token>, sessions: map<Secret, Session>)

  const EMPTY := State(map[], map[])

  datatype Error =
    | NotFound
    | Forbidden
    | Duplicate
    | TokenLimit
    | Unnamed
    | AuthorizationPending
    | AuthorizationDenied
    | Expired
    | Crashed
  datatype Outcome = Committed(state: State) | Refused(error: Error)

  // ----- Codes -----

  const ALPHABET := "ABCDEFGHJKMNPQRSTUVWXYZ23456789"
  const CODE_LENGTH := 8

  predicate Listed(c: char) {
    c in ALPHABET
  }

  function UpperChar(c: char): char {
    if 'a' <= c <= 'z' then (c as int - 32) as char else c
  }

  /** Keeps the letters and digits of a code, however it was typed. */
  function NormalizeUserCode(code: string): string {
    if code == [] then []
    else
      var rest := NormalizeUserCode(code[..|code| - 1]);
      var c := UpperChar(code[|code| - 1]);
      if Listed(c) then rest + [c] else rest
  }

  function FormatUserCode(code: string): string {
    if |code| != CODE_LENGTH then code else code[..4] + "-" + code[4..]
  }

  predicate IsCode(code: string) {
    |code| == CODE_LENGTH && forall c <- code :: Listed(c)
  }

  lemma {:induction false} NormalizeAppends(a: string, b: string)
    ensures NormalizeUserCode(a + b) == NormalizeUserCode(a) + NormalizeUserCode(b)
  {
    if b == [] {
      assert a + b == a;
    } else {
      assert (a + b)[..|a + b| - 1] == a + b[..|b| - 1];
      NormalizeAppends(a, b[..|b| - 1]);
    }
  }

  /** Codes are made of capitals and digits that cannot be taken for one another: no I, L, O, 0 or 1. */
  lemma AlphabetIsClear(c: char)
    ensures Listed(c) <==> ('A' <= c <= 'Z' && c != 'I' && c != 'L' && c != 'O') || '2' <= c <= '9'
  {
  }

  lemma AlphabetIsUpper(c: char)
    requires Listed(c)
    ensures UpperChar(c) == c
  {
  }

  lemma {:induction false} NormalizeKeeps(code: string)
    requires forall c <- code :: Listed(c)
    ensures NormalizeUserCode(code) == code
  {
    hide Listed, UpperChar;
    if code != [] {
      var front, last := code[..|code| - 1], code[|code| - 1];
      NormalizeKeeps(front);
      AlphabetIsUpper(last);
      assert code == front + [last];
    }
  }

  /** Gap, letter, gap, letter, and so on to the last gap. */
  function Interleave(gaps: seq<string>, letters: string): string
    requires |gaps| == |letters| + 1
  {
    if letters == "" then gaps[0]
    else Interleave(gaps[..|letters|], letters[..|letters| - 1]) + [letters[|letters| - 1]] + gaps[|letters|]
  }

  /** The text is the code's letters, in either case, with anything else typed before, between and behind them. */
  ghost predicate SpelledAs(typed: string, code: string, gaps: seq<string>, letters: string) {
    && |letters| == |code| && |gaps| == |code| + 1
    && (forall i | 0 <= i < |code| :: UpperChar(letters[i]) == code[i])
    && (forall g <- gaps, c <- g :: !Listed(UpperChar(c)))
    && typed == Interleave(gaps, letters)
  }

  ghost predicate Spells(typed: string, code: string) {
    exists gaps, letters :: SpelledAs(typed, code, gaps, letters)
  }

  /**
   * A typed text is recognised as a code exactly when it spells it: any case, any separators, nowhere a foreign letter
   * or digit.
   */
  lemma CodeRoundTrip(code: string, typed: string)
    requires forall c <- code :: Listed(c)
    ensures NormalizeUserCode(typed) == code <==> Spells(typed, code)
  {
    hide Listed, UpperChar, SpelledAs;
    if NormalizeUserCode(typed) == code {
      var gaps, letters := Spelling(typed);
    }
    forall gaps, letters | SpelledAs(typed, code, gaps, letters) ensures NormalizeUserCode(typed) == code {
      SpellingIsRecognised(typed, code, gaps, letters);
    }
  }

  lemma {:induction false} Dropped(gap: string)
    requires forall c <- gap :: !Listed(UpperChar(c))
    ensures NormalizeUserCode(gap) == ""
  {
    if gap != "" {
      Dropped(gap[..|gap| - 1]);
    }
  }

  lemma {:induction false} SpellingIsRecognised(typed: string, code: string, gaps: seq<string>, letters: string)
    requires (forall c <- code :: Listed(c)) && SpelledAs(typed, code, gaps, letters)
    ensures NormalizeUserCode(typed) == code
    decreases |code|
  {
    hide Listed, UpperChar;
    var n := |code|;
    Dropped(gaps[n]);
    if n > 0 {
      var front := Interleave(gaps[..n], letters[..n - 1]);
      SpellingIsRecognised(front, code[..n - 1], gaps[..n], letters[..n - 1]);
      var some := front + [letters[n - 1]];
      assert some[..|some| - 1] == front;
      NormalizeAppends(some, gaps[n]);
      assert code == code[..n - 1] + [code[n - 1]];
    }
  }

  lemma {:induction false} Spelling(typed: string) returns (gaps: seq<string>, letters: string)
    ensures SpelledAs(typed, NormalizeUserCode(typed), gaps, letters)
  {
    hide Listed, UpperChar;
    if typed == "" {
      gaps, letters := [""], "";
    } else {
      var c := typed[|typed| - 1];
      gaps, letters := Spelling(typed[..|typed| - 1]);
      var n := |letters|;
      if Listed(UpperChar(c)) {
        assert (gaps + [""])[..n + 1] == gaps && (letters + [c])[..n] == letters;
        gaps, letters := gaps + [""], letters + [c];
      } else {
        LastGapGrows(gaps, letters, c);
        gaps := gaps[n := gaps[n] + [c]];
      }
      assert typed == typed[..|typed| - 1] + [c];
    }
  }

  lemma LastGapGrows(gaps: seq<string>, letters: string, c: char)
    requires |gaps| == |letters| + 1
    ensures var n := |letters|; Interleave(gaps[n := gaps[n] + [c]], letters) == Interleave(gaps, letters) + [c]
  {
    var n := |letters|;
    assert gaps[n := gaps[n] + [c]][..n] == gaps[..n];
  }

  lemma HyphenUnlisted()
    ensures !Listed(UpperChar("-"[0]))
  {
  }

  /** A code is recognised as it is shown. */
  lemma DisplayRoundTrip(code: string)
    requires IsCode(code)
    ensures NormalizeUserCode(FormatUserCode(code)) == code
  {
    hide Listed, UpperChar;
    HyphenUnlisted();
    var a, b := code[..4], code[4..];
    NormalizeKeeps(a);
    NormalizeKeeps(b);
    assert a + b == code;
    Separated(a, "-", b);
  }

  lemma Separated(a: string, gap: string, b: string)
    requires |gap| == 1 && !Listed(UpperChar(gap[0]))
    ensures NormalizeUserCode(a + gap + b) == NormalizeUserCode(a) + NormalizeUserCode(b)
  {
    NormalizeAppends(a + gap, b);
    NormalizeAppends(a, gap);
    Dropped(gap);
  }

  // ----- Keys -----

  function KeysOf(tokens: map<TokenId, Token>, u: User): set<TokenId> {
    set t | t in tokens && tokens[t].user == u
  }

  predicate NameTaken(tokens: map<TokenId, Token>, u: User, name: string) {
    exists t <- tokens :: tokens[t].user == u && tokens[t].name == name
  }

  /** A fresh key for the person, unless it has no name, they hold twenty, or the name is taken. */
  function Minted(s: State, id: TokenId, key: Token): Outcome {
    if key.name == "" then Refused(Unnamed)
    else if |KeysOf(s.tokens, key.user)| >= LIMIT then Refused(TokenLimit)
    else if NameTaken(s.tokens, key.user, key.name) then Refused(Duplicate)
    else Committed(s.(tokens := s.tokens[id := key]))
  }

  /** Removing keys removes their children and the sessions that minted any of them. */
  function Without(s: State, ids: set<TokenId>): State {
    var children := set t | t in s.tokens && s.tokens[t].parent.Some? && s.tokens[t].parent.value in ids;
    var gone := ids + children;
    State(s.tokens - gone,
          map d <- s.sessions | !(s.sessions[d].token.Some? && s.sessions[d].token.value in gone) :: s.sessions[d])
  }

  function Deleted(s: State, u: User, id: TokenId): Outcome {
    if id !in s.tokens || s.tokens[id].user != u then Refused(NotFound) else Committed(Without(s, {id}))
  }

  predicate IsChild(s: State, t: TokenId, parent: TokenId, project: Project) {
    t in s.tokens && s.tokens[t].parent == Some(parent) && s.tokens[t].project == Some(project)
  }

  /** What the person may do with the project now. */
  datatype Access = NoAccess | ReadOnly | Writer

  /** A machine's key for a project: a new secret for the one it has, or a new key. */
  ghost function Issued(s: State, u: User, parent: TokenId, project: Project, access: Access, id: TokenId, name: string,
                        secret: Secret)
    : Outcome
  {
    if parent !in s.tokens || s.tokens[parent].user != u || s.tokens[parent].kind != Setup || access == NoAccess then
      Refused(NotFound)
    else if access == ReadOnly then Refused(Forbidden)
    else if exists t :: IsChild(s, t, parent, project) then
      var t :| IsChild(s, t, parent, project);
      Committed(s.(tokens := s.tokens[t := s.tokens[t].(secret := secret)]))
    else Minted(s, id, Token(u, name, secret, Scoped, Some(parent), Some(project)))
  }

  // ----- Sessions -----

  /** Some session may still be approved or denied under the code. */
  predicate Open(x: Session, code: string, now: Time) {
    x.code == NormalizeUserCode(code) && x.status == Pending && x.expires > now
  }

  predicate AnyOpen(s: State, code: string, now: Time) {
    exists d <- s.sessions :: Open(s.sessions[d], code, now)
  }

  predicate CodeTaken(sessions: map<Secret, Session>, code: string) {
    exists d <- sessions :: sessions[d].code == code
  }

  function Swept(s: State, now: Time): State {
    s.(sessions := map d <- s.sessions | s.sessions[d].expires >= now - KEPT :: s.sessions[d])
  }

  /** The first of five drawn codes that no session has. */
  function FirstFree(sessions: map<Secret, Session>, draws: seq<string>): Option<string> {
    if draws == [] then None
    else if !CodeTaken(sessions, draws[0]) then Some(draws[0])
    else FirstFree(sessions, draws[1..])
  }

  function Opened(s: State, device: Secret, draws: seq<string>, flow: Flow, now: Time): State {
    var t := Swept(s, now);
    match FirstFree(t.sessions, draws)
    case None => t
    case Some(code) => t.(sessions := t.sessions[device := Session(code, flow, Pending, now + TTL, None, None, None)])
  }

  function ApprovedInit(s: State, code: string, u: User, project: Project, access: Access, inWorkspace: bool,
                        now: Time): Outcome
  {
    if !exists d <- s.sessions :: Open(s.sessions[d], code, now) && s.sessions[d].flow == Init then Refused(NotFound)
    else if access == NoAccess then Refused(NotFound)
    else if access == ReadOnly || !inWorkspace then Refused(Forbidden)
    else
      Committed(s.(sessions := map d <- s.sessions ::
                     if Open(s.sessions[d], code, now) && s.sessions[d].flow == Init
                     then s.sessions[d].(status := Approved, approver := Some(u), project := Some(project))
                     else s.sessions[d]))
  }

  function ApprovedUnscoped(s: State, code: string, u: User, flow: Flow, now: Time): Outcome {
    if flow == Init then Refused(Forbidden)
    else if !exists d <- s.sessions :: Open(s.sessions[d], code, now) && s.sessions[d].flow == flow then
      Refused(NotFound)
    else
      Committed(s.(sessions := map d <- s.sessions ::
                     if Open(s.sessions[d], code, now) && s.sessions[d].flow == flow
                     then s.sessions[d].(status := Approved, approver := Some(u)) else s.sessions[d]))
  }

  function DeniedByCode(s: State, code: string, now: Time): Outcome {
    if !AnyOpen(s, code, now) then Refused(NotFound)
    else
      Committed(s.(sessions := map d <- s.sessions ::
                     if Open(s.sessions[d], code, now) then s.sessions[d].(status := Denied) else s.sessions[d]))
  }

  function KindOf(flow: Flow): Kind {
    match flow
    case Init => Scoped
    case Login => Setup
    case Manage => Personal
    case App => Desktop
  }

  /** What one poll does; a lost project turns the approval into a denial that is kept. */
  datatype Poll = Answer(error: Error, after: State) | Grant(id: TokenId, after: State)

  function Polled(s: State, device: Secret, access: Access, id: TokenId, name: string, secret: Secret,
                  now: Time): Poll
  {
    if device !in s.sessions then Answer(Expired, s)
    else
      var x := s.sessions[device];
      if x.status == Denied then Answer(AuthorizationDenied, s)
      else if x.status == Collected || x.expires <= now then Answer(Expired, s)
      else if x.status == Pending then Answer(AuthorizationPending, s)
      else if x.flow == Init && access != Writer then
        Answer(AuthorizationDenied, s.(sessions := s.sessions[device := x.(status := Denied)]))
      else if x.approver.None? then Answer(Crashed, s)
      else
        var key := Token(x.approver.value, name, secret, KindOf(x.flow), None,
                         if x.flow == Init then x.project else None);
        match Minted(s, id, key)
        case Refused(e) => Answer(e, s)
        case Committed(t) => Grant(id, t.(sessions := t.sessions[device := x.(status := Collected, token := Some(id))]))
  }

  // ----- What every transaction keeps -----

  /** A child belongs to a setup key of the same person and names a project. */
  predicate TokenSound(tokens: map<TokenId, Token>, k: Token) {
    && (k.kind == Setup ==> k.parent.None?)
    && (k.parent.Some? ==>
          && k.parent.value in tokens && tokens[k.parent.value].kind == Setup && tokens[k.parent.value].user == k.user
          && k.project.Some?)
  }

  predicate SamePlace(a: Token, b: Token) {
    a.parent == b.parent && a.project == b.project
  }

  ghost predicate OneKeyPerProject(tokens: map<TokenId, Token>) {
    forall t, v :: t in tokens && v in tokens && tokens[t].parent.Some? && SamePlace(tokens[t], tokens[v]) ==> t == v
  }

  /** The unique index on secrets. */
  ghost predicate SecretsUnique(tokens: map<TokenId, Token>) {
    forall t, v :: t in tokens && v in tokens && tokens[t].secret == tokens[v].secret ==> t == v
  }

  predicate NewSecret(tokens: map<TokenId, Token>, secret: Secret) {
    forall t <- tokens :: tokens[t].secret != secret
  }

  /** Nobody holds more than twenty keys, and a machine has at most one for each project. */
  ghost predicate KeysSound(tokens: map<TokenId, Token>) {
    && (forall t <- tokens :: TokenSound(tokens, tokens[t]))
    && OneKeyPerProject(tokens)
    && (forall u :: |KeysOf(tokens, u)| <= LIMIT)
  }

  /** A key was minted exactly by being collected, on somebody's approval. */
  predicate SessionSound(tokens: map<TokenId, Token>, x: Session) {
    && (x.status == Collected <==> x.token.Some?)
    && ((x.status == Approved || x.status == Collected) ==> x.approver.Some?)
    && (x.token.Some? ==> x.token.value in tokens && x.approver == Some(tokens[x.token.value].user))
  }

  ghost predicate SessionsSound(s: State) {
    && (forall d <- s.sessions :: SessionSound(s.tokens, s.sessions[d]))
    && (forall d, e :: d in s.sessions && e in s.sessions && s.sessions[d].code == s.sessions[e].code ==> d == e)
    && (forall d, e | d in s.sessions && e in s.sessions ::
          s.sessions[d].token.Some? && s.sessions[d].token == s.sessions[e].token ==> d == e)
  }

  ghost predicate Sound(s: State) {
    KeysSound(s.tokens) && SecretsUnique(s.tokens) && SessionsSound(s)
  }

  lemma KeysAdd(tokens: map<TokenId, Token>, id: TokenId, key: Token, u: User)
    requires id !in tokens
    ensures KeysOf(tokens[id := key], u) == KeysOf(tokens, u) + if key.user == u then {id} else {}
    ensures |KeysOf(tokens[id := key], u)| == |KeysOf(tokens, u)| + if key.user == u then 1 else 0
  {
    assert KeysOf(tokens[id := key], u) == KeysOf(tokens, u) + if key.user == u then {id} else {};
  }

  /** Minting under the cap keeps everybody under it. */
  lemma MintedSound(s: State, id: TokenId, key: Token)
    requires Sound(s) && id !in s.tokens && TokenSound(s.tokens, key) && Minted(s, id, key).Committed?
    requires NewSecret(s.tokens, key.secret)
    requires key.parent.Some? ==> forall t :: !IsChild(s, t, key.parent.value, key.project.value)
    ensures Sound(Minted(s, id, key).state)
  {
    hide KeysOf, SessionsSound, NameTaken, OneKeyPerProject, SecretsUnique, NewSecret;
    var after := s.tokens[id := key];
    MintedIs(s, id, key);
    SecretReplaced(s.tokens, id, key);
    CapKept(s.tokens, id, key, after);
    MintedOnePerProject(s, id, key);
    assert forall v <- after :: v == id || TokenSound(s.tokens, s.tokens[v]);
    SessionsStay(s, after);
  }

  lemma CapKept(tokens: map<TokenId, Token>, id: TokenId, key: Token, after: map<TokenId, Token>)
    requires id !in tokens && |KeysOf(tokens, key.user)| < LIMIT && after == tokens[id := key]
    requires forall u :: |KeysOf(tokens, u)| <= LIMIT
    ensures forall u :: |KeysOf(after, u)| <= LIMIT
  {
    hide KeysOf;
    forall u | true ensures |KeysOf(after, u)| <= LIMIT {
      KeysAdd(tokens, id, key, u);
    }
  }

  /** Sessions do not mind what else happens to keys, as long as the minted ones keep their owners. */
  lemma SessionsStay(s: State, tokens: map<TokenId, Token>)
    requires SessionsSound(s) && forall t <- s.tokens :: t in tokens && tokens[t].user == s.tokens[t].user
    ensures SessionsSound(s.(tokens := tokens))
  {
    assert forall d <- s.sessions :: SessionSound(s.tokens, s.sessions[d]) && SessionSound(tokens, s.sessions[d]);
  }

  lemma MintedOnePerProject(s: State, id: TokenId, key: Token)
    requires OneKeyPerProject(s.tokens) && id !in s.tokens && TokenSound(s.tokens, key)
    requires key.parent.Some? ==> forall t :: !IsChild(s, t, key.parent.value, key.project.value)
    ensures OneKeyPerProject(s.tokens[id := key])
  {
    if key.parent.Some? {
      assert forall t <- s.tokens :: !IsChild(s, t, key.parent.value, key.project.value);
    }
  }

  /** A key with a new secret, be it new itself or not, keeps secrets apart. */
  lemma SecretReplaced(tokens: map<TokenId, Token>, id: TokenId, key: Token)
    requires SecretsUnique(tokens) && NewSecret(tokens, key.secret)
    ensures SecretsUnique(tokens[id := key])
  {
  }

  lemma RotatedSound(s: State, t: TokenId, secret: Secret)
    requires Sound(s) && t in s.tokens && NewSecret(s.tokens, secret)
    ensures Sound(s.(tokens := s.tokens[t := s.tokens[t].(secret := secret)]))
  {
    var after := s.tokens[t := s.tokens[t].(secret := secret)];
    forall u ensures |KeysOf(after, u)| <= LIMIT {
      assert KeysOf(after, u) == KeysOf(s.tokens, u);
    }
    hide KeysOf, SessionsSound, SecretsUnique, NewSecret;
    SecretReplaced(s.tokens, t, after[t]);
    assert forall v <- after :: TokenSound(s.tokens, s.tokens[v]) && TokenSound(after, after[v]);
    SessionsStay(s, after);
  }

  lemma IssuedSound(s: State, u: User, parent: TokenId, project: Project, access: Access, id: TokenId, name: string,
                    secret: Secret)
    requires Sound(s) && id !in s.tokens && Issued(s, u, parent, project, access, id, name, secret).Committed?
    requires NewSecret(s.tokens, secret)
    ensures Sound(Issued(s, u, parent, project, access, id, name, secret).state)
  {
    hide Sound, Minted;
    if exists t :: IsChild(s, t, parent, project) {
      forall t | IsChild(s, t, parent, project)
        ensures Sound(s.(tokens := s.tokens[t := s.tokens[t].(secret := secret)]))
      {
        RotatedSound(s, t, secret);
      }
    } else {
      MintedSound(s, id, Token(u, name, secret, Scoped, Some(parent), Some(project)));
    }
  }

  lemma WithoutSound(s: State, ids: set<TokenId>)
    requires Sound(s)
    ensures Sound(Without(s, ids))
  {
    var t := Without(s, ids);
    forall u ensures |KeysOf(t.tokens, u)| <= LIMIT {
      Fewer(KeysOf(t.tokens, u), KeysOf(s.tokens, u));
    }
    hide KeysOf;
    forall v <- t.tokens ensures TokenSound(t.tokens, t.tokens[v]) {
      assert TokenSound(s.tokens, s.tokens[v]);
      WithoutKeeps(s, ids, v);
    }
    assert forall d <- t.sessions :: SessionSound(s.tokens, s.sessions[d]) && SessionSound(t.tokens, t.sessions[d]);
  }

  /** What stays was not the child of anything removed, and neither was its parent. */
  lemma WithoutKeeps(s: State, ids: set<TokenId>, v: TokenId)
    requires KeysSound(s.tokens) && v in Without(s, ids).tokens
    ensures var p := s.tokens[v].parent; p.Some? ==> p.value in Without(s, ids).tokens
  {
    assert TokenSound(s.tokens, s.tokens[v]);
    var p := s.tokens[v].parent;
    if p.Some? {
      assert TokenSound(s.tokens, s.tokens[p.value]);
    }
  }

  lemma Fewer<T>(a: set<T>, b: set<T>)
    requires a <= b
    ensures |a| <= |b|
  {
    assert b == a + (b - a);
  }

  lemma SweptSound(s: State, now: Time)
    requires SessionsSound(s)
    ensures SessionsSound(Swept(s, now))
  {
    assert forall d <- Swept(s, now).sessions :: SessionSound(s.tokens, s.sessions[d]);
  }

  lemma {:induction false} FirstFreeIsFree(sessions: map<Secret, Session>, draws: seq<string>)
    ensures FirstFree(sessions, draws).Some? ==> !CodeTaken(sessions, FirstFree(sessions, draws).value)
    ensures FirstFree(sessions, draws).None? <==> forall k | 0 <= k < |draws| :: CodeTaken(sessions, draws[k])
  {
    if draws != [] && CodeTaken(sessions, draws[0]) {
      FirstFreeIsFree(sessions, draws[1..]);
      assert draws == [draws[0]] + draws[1..];
    }
  }

  lemma OpenedSound(s: State, device: Secret, draws: seq<string>, flow: Flow, now: Time)
    requires Sound(s) && device !in s.sessions
    ensures Sound(Opened(s, device, draws, flow, now))
  {
    hide KeysSound, SecretsUnique, SessionsSound, FirstFree, CodeTaken, Swept;
    var t := Swept(s, now);
    SweptSound(s, now);
    SweptOnly(s, now);
    FirstFreeIsFree(t.sessions, draws);
    if FirstFree(t.sessions, draws).Some? {
      AddedSound(t, device, Session(FirstFree(t.sessions, draws).value, flow, Pending, now + TTL, None, None, None));
    }
  }

  lemma SweptOnly(s: State, now: Time)
    ensures Swept(s, now).tokens == s.tokens && Swept(s, now).sessions.Keys <= s.sessions.Keys
  {
  }

  lemma AddedSound(s: State, device: Secret, x: Session)
    requires SessionsSound(s) && device !in s.sessions && x.status == Pending && x.token.None?
             && !CodeTaken(s.sessions, x.code)
    ensures SessionsSound(s.(sessions := s.sessions[device := x]))
  {
    var t := s.(sessions := s.sessions[device := x]);
    forall d <- t.sessions ensures SessionSound(t.tokens, t.sessions[d]) {
      assert d != device ==> SessionSound(s.tokens, s.sessions[d]);
    }
  }

  /** Sessions moved on from pending, or from approved to denied, stay sound. */
  lemma MovedSound(s: State, t: State)
    requires SessionsSound(s) && t.tokens == s.tokens && t.sessions.Keys == s.sessions.Keys
    requires forall d <- s.sessions :: t.sessions[d] == s.sessions[d] ||
               (&& (s.sessions[d].status == Pending || s.sessions[d].status == Approved)
                && t.sessions[d].code == s.sessions[d].code && t.sessions[d].token == s.sessions[d].token
                && t.sessions[d].status != Pending && t.sessions[d].status != Collected
                && (t.sessions[d].status == Approved ==> t.sessions[d].approver.Some?))
    ensures SessionsSound(t)
  {
    forall d <- t.sessions ensures SessionSound(t.tokens, t.sessions[d]) {
      assert SessionSound(s.tokens, s.sessions[d]);
    }
  }

  lemma PolledSound(s: State, device: Secret, access: Access, id: TokenId, name: string, secret: Secret, now: Time)
    requires Sound(s) && id !in s.tokens && NewSecret(s.tokens, secret)
    ensures Sound(Polled(s, device, access, id, name, secret, now).after)
    ensures Polled(s, device, access, id, name, secret, now) != Answer(Crashed, s)
  {
    hide KeysSound, SecretsUnique, NewSecret, SessionsSound, Minted;
    if device in s.sessions {
      var x := s.sessions[device];
      ApprovedHasApprover(s, device);
      if x.status == Approved {
        var key := Token(x.approver.value, name, secret, KindOf(x.flow), None,
                         if x.flow == Init then x.project else None);
        MintedIs(s, id, key);
        if Polled(s, device, access, id, name, secret, now).Grant? {
          MintedSound(s, id, key);
          CollectedSound(s, device, id, key);
        }
      }
      if Polled(s, device, access, id, name, secret, now).Answer? {
        MovedSound(s, Polled(s, device, access, id, name, secret, now).after);
      }
    }
  }

  lemma MintedIs(s: State, id: TokenId, key: Token)
    ensures Minted(s, id, key) == Committed(s.(tokens := s.tokens[id := key]))
            || (Minted(s, id, key).Refused? && Minted(s, id, key).error != Crashed)
  {
  }

  lemma ApprovedHasApprover(s: State, d: Secret)
    requires SessionsSound(s) && d in s.sessions
    ensures s.sessions[d].status == Approved ==> s.sessions[d].approver.Some? && s.sessions[d].token.None?
    ensures s.sessions[d].status == Pending ==> s.sessions[d].token.None?
  {
    assert SessionSound(s.tokens, s.sessions[d]);
  }

  lemma CollectedSound(s: State, device: Secret, id: TokenId, key: Token)
    requires SessionsSound(s) && id !in s.tokens && device in s.sessions && s.sessions[device].status == Approved
    requires s.sessions[device].approver == Some(key.user)
    ensures SessionsSound(State(s.tokens[id := key],
                                s.sessions[device := s.sessions[device].(status := Collected, token := Some(id))]))
  {
    var t := State(s.tokens[id := key],
                   s.sessions[device := s.sessions[device].(status := Collected, token := Some(id))]);
    forall d <- t.sessions ensures SessionSound(t.tokens, t.sessions[d]) {
      assert SessionSound(s.tokens, s.sessions[d]);
    }
    assert forall d <- s.sessions :: SessionSound(s.tokens, s.sessions[d]) ==> s.sessions[d].token != Some(id);
  }

  // ----- Runs -----

  datatype Event =
    | Begin(device: Secret, draws: seq<string>, flow: Flow, at: Time)
    | ApproveInit(code: string, user: User, project: Project, access: Access, inWorkspace: bool, at: Time)
    | ApproveFlow(code: string, user: User, flow: Flow, at: Time)
    | Deny(code: string, at: Time)
    | Collect(device: Secret, access: Access, id: TokenId, name: string, secret: Secret, at: Time)
    | Issue(user: User, parent: TokenId, project: Project, access: Access, id: TokenId, name: string, secret: Secret)
    | Create(user: User, id: TokenId, name: string, secret: Secret)
    | Delete(user: User, id: TokenId)
    | Drop(ids: set<TokenId>)
    | Forget(devices: set<Secret>)

  function StateOf(o: Outcome, s: State): State {
    match o
    case Committed(t) => t
    case Refused(_) => s
  }

  ghost function Next(s: State, e: Event): State {
    match e
    case Begin(device, draws, flow, at) => Opened(s, device, draws, flow, at)
    case ApproveInit(code, u, project, access, inWorkspace, at) =>
      StateOf(ApprovedInit(s, code, u, project, access, inWorkspace, at), s)
    case ApproveFlow(code, u, flow, at) => StateOf(ApprovedUnscoped(s, code, u, flow, at), s)
    case Deny(code, at) => StateOf(DeniedByCode(s, code, at), s)
    case Collect(device, access, id, name, secret, at) => Polled(s, device, access, id, name, secret, at).after
    case Issue(u, parent, project, access, id, name, secret) =>
      StateOf(Issued(s, u, parent, project, access, id, name, secret), s)
    case Create(u, id, name, secret) => StateOf(Minted(s, id, Token(u, name, secret, Personal, None, None)), s)
    case Delete(u, id) => StateOf(Deleted(s, u, id), s)
    case Drop(ids) => Without(s, ids)
    case Forget(devices) => s.(sessions := s.sessions - devices)
  }

  /** Random secrets and new ids are new. */
  predicate Fresh(s: State, used: set<Secret>, e: Event) {
    match e
    case Begin(device, _, _, _) => device !in used
    case Collect(_, _, id, _, secret, _) => id !in s.tokens && NewSecret(s.tokens, secret)
    case Issue(_, _, _, _, id, _, secret) => id !in s.tokens && NewSecret(s.tokens, secret)
    case Create(_, id, _, secret) => id !in s.tokens && NewSecret(s.tokens, secret)
    case _ => true
  }

  lemma ForgottenSound(s: State, devices: set<Secret>)
    requires SessionsSound(s)
    ensures SessionsSound(s.(sessions := s.sessions - devices))
  {
    assert forall d <- (s.sessions - devices) :: SessionSound(s.tokens, s.sessions[d]);
  }

  lemma ApprovalsSound(s: State, e: Event)
    requires SessionsSound(s) && (e.ApproveInit? || e.ApproveFlow? || e.Deny?)
    ensures SessionsSound(Next(s, e)) && Next(s, e).tokens == s.tokens
  {
    hide SessionsSound;
    MovedSound(s, Next(s, e));
  }

  /**
   * No transaction breaks the cap, the one key per project, the distinct secrets, or the tie between keys and
   * approvals.
   */
  lemma StepSound(s: State, used: set<Secret>, e: Event)
    requires Sound(s) && s.sessions.Keys <= used && Fresh(s, used, e)
    ensures Sound(Next(s, e))
  {
    hide KeysSound, SecretsUnique, NewSecret, SessionsSound, Opened, ApprovedInit, ApprovedUnscoped, DeniedByCode,
      Polled, Issued, Minted, Without;
    match e
    case Begin(device, draws, flow, at) => OpenedSound(s, device, draws, flow, at);
    case ApproveInit(_, _, _, _, _, _) => ApprovalsSound(s, e);
    case ApproveFlow(_, _, _, _) => ApprovalsSound(s, e);
    case Deny(_, _) => ApprovalsSound(s, e);
    case Collect(device, access, id, name, secret, at) => PolledSound(s, device, access, id, name, secret, at);
    case Issue(u, parent, project, access, id, name, secret) =>
      if Issued(s, u, parent, project, access, id, name, secret).Committed? {
        IssuedSound(s, u, parent, project, access, id, name, secret);
      }
    case Create(u, id, name, secret) =>
      if Minted(s, id, Token(u, name, secret, Personal, None, None)).Committed? {
        MintedSound(s, id, Token(u, name, secret, Personal, None, None));
      }
    case Delete(u, id) => WithoutSound(s, {id});
    case Drop(ids) => WithoutSound(s, ids);
    case Forget(devices) => ForgottenSound(s, devices);
  }

  // ----- The life of one session -----

  /** A session only moves from pending to approved or denied, and from approved to collected or denied. */
  predicate Progress(a: Session, b: Session) {
    && a.code == b.code && a.flow == b.flow && a.expires == b.expires
    && (a == b
        || (a.status == Pending && (b.status == Approved || b.status == Denied))
        || (a.status == Approved && (b.status == Collected || b.status == Denied)))
    && (a.status == Approved ==> b.approver == a.approver)
  }

  lemma StepProgress(s: State, used: set<Secret>, e: Event, d: Secret)
    requires d in s.sessions && s.sessions.Keys <= used && Fresh(s, used, e) && d in Next(s, e).sessions
    ensures Progress(s.sessions[d], Next(s, e).sessions[d])
  {
    hide NormalizeUserCode, FirstFree, NameTaken, KeysOf;
  }

  /** The event hands the device its key. */
  ghost predicate Grants(s: State, e: Event, d: Secret) {
    e.Collect? && e.device == d && Polled(s, d, e.access, e.id, e.name, e.secret, e.at).Grant?
  }

  /** A key is handed out exactly when the session moves from approved to collected, to the one who approved. */
  lemma GrantIsCollection(s: State, used: set<Secret>, e: Event, d: Secret)
    requires Sound(s) && d in s.sessions && s.sessions.Keys <= used && Fresh(s, used, e) && d in Next(s, e).sessions
    ensures Grants(s, e, d) <==> s.sessions[d].status == Approved && Next(s, e).sessions[d].status == Collected
    ensures Grants(s, e, d) ==>
              && e.id in Next(s, e).tokens && Next(s, e).sessions[d].token == Some(e.id)
              && Some(Next(s, e).tokens[e.id].user) == s.sessions[d].approver
              && Next(s, e).tokens[e.id].kind == KindOf(s.sessions[d].flow)
  {
    hide NormalizeUserCode, FirstFree, NameTaken, KeysOf, KeysSound, SessionsSound;
  }

  /** All device secrets a run has issued. */
  function Used(es: seq<Event>): set<Secret> {
    if es == [] then {}
    else Used(es[..|es| - 1]) + if es[|es| - 1].Begin? then {es[|es| - 1].device} else {}
  }

  ghost predicate Legal(es: seq<Event>)
    decreases es, 0
  {
    es == [] || (Legal(es[..|es| - 1]) && Fresh(After(es[..|es| - 1]), Used(es[..|es| - 1]), es[|es| - 1]))
  }

  ghost function After(es: seq<Event>): State
    requires Legal(es)
    decreases es, 1
  {
    if es == [] then EMPTY else Next(After(es[..|es| - 1]), es[|es| - 1])
  }

  /** How many keys a device was handed. */
  ghost function Granted(es: seq<Event>, d: Secret): nat
    requires Legal(es)
  {
    if es == [] then 0
    else Granted(es[..|es| - 1], d) + if Grants(After(es[..|es| - 1]), es[|es| - 1], d) then 1 else 0
  }

  lemma NewDevices(s: State, used: set<Secret>, e: Event)
    requires s.sessions.Keys <= used && Fresh(s, used, e)
    ensures Next(s, e).sessions.Keys <= used + if e.Begin? then {e.device} else {}
    ensures forall d :: Grants(s, e, d) ==> d in s.sessions && s.sessions[d].status == Approved
    ensures forall d :: d in Next(s, e).sessions && d !in s.sessions ==> Next(s, e).sessions[d].status == Pending
  {
    hide NormalizeUserCode, FirstFree, NameTaken, KeysOf;
  }

  /** The count of keys handed to a device agrees with its session. */
  predicate Counts(s: State, used: set<Secret>, d: Secret, n: nat) {
    && s.sessions.Keys <= used && n <= 1 && (d !in used ==> n == 0)
    && (d in s.sessions ==> (n == 1 <==> s.sessions[d].status == Collected))
  }

  lemma CountsStep(s: State, used: set<Secret>, e: Event, d: Secret, n: nat)
    requires Sound(s) && Fresh(s, used, e) && Counts(s, used, d, n)
    ensures Counts(Next(s, e), used + if e.Begin? then {e.device} else {}, d, n + if Grants(s, e, d) then 1 else 0)
  {
    hide Sound, Next, Grants;
    NewDevices(s, used, e);
    if d in s.sessions && d in Next(s, e).sessions {
      StepProgress(s, used, e, d);
      GrantIsCollection(s, used, e, d);
    }
    if d !in s.sessions && d in Next(s, e).sessions {
      OnlyOpened(s, used, e, d);
    }
  }

  lemma OnlyOpened(s: State, used: set<Secret>, e: Event, d: Secret)
    requires s.sessions.Keys <= used && Fresh(s, used, e) && d !in s.sessions && d in Next(s, e).sessions
    ensures e.Begin? && e.device == d && d !in used
  {
    hide NormalizeUserCode, FirstFree, NameTaken, KeysOf;
  }

  /** A device is handed at most one key, ever, and a session that still exists shows whether it was. */
  lemma {:induction false} OneKeyPerSession(es: seq<Event>, d: Secret)
    requires Legal(es)
    ensures Sound(After(es)) && Counts(After(es), Used(es), d, Granted(es, d))
  {
    if es == [] {
      EmptySound();
    } else {
      hide Sound, Next, Fresh, Grants, Counts;
      var prior, e := es[..|es| - 1], es[|es| - 1];
      OneKeyPerSession(prior, d);
      CountsKeys(After(prior), Used(prior), d, Granted(prior, d));
      StepSound(After(prior), Used(prior), e);
      CountsStep(After(prior), Used(prior), e, d, Granted(prior, d));
    }
  }

  lemma CountsKeys(s: State, used: set<Secret>, d: Secret, n: nat)
    requires Counts(s, used, d, n)
    ensures s.sessions.Keys <= used
  {
  }

  lemma EmptySound()
    ensures Sound(EMPTY)
  {
    forall u ensures |KeysOf(EMPTY.tokens, u)| <= LIMIT {
      assert KeysOf(EMPTY.tokens, u) == {};
    }
  }

  // ----- Secrets -----

  predicate Authenticates(s: State, secret: Secret, t: TokenId) {
    t in s.tokens && s.tokens[t].secret == secret
  }

  ghost predicate Dead(s: State, secret: Secret) {
    forall t :: !Authenticates(s, secret, t)
  }

  /** Asking again for a project replaces the machine's secret for it and adds no key. */
  lemma RotationReplaces(s: State, u: User, parent: TokenId, project: Project, id: TokenId, name: string,
                         secret: Secret, t: TokenId)
    requires Sound(s) && NewSecret(s.tokens, secret)
    requires parent in s.tokens && s.tokens[parent].user == u && s.tokens[parent].kind == Setup
             && IsChild(s, t, parent, project)
    ensures var o := Issued(s, u, parent, project, Writer, id, name, secret);
            && o.Committed? && o.state.tokens.Keys == s.tokens.Keys
            && Authenticates(o.state, secret, t)
            && Dead(o.state, s.tokens[t].secret)
  {
    hide KeysOf, NameTaken;
    var o := Issued(s, u, parent, project, Writer, id, name, secret);
    forall v | IsChild(s, v, parent, project) ensures v == t {
      assert SamePlace(s.tokens[v], s.tokens[t]);
    }
    assert o.state == s.(tokens := s.tokens[t := s.tokens[t].(secret := secret)]);
  }

  /** A removed key authenticates nothing, and neither does any key it was the parent of. */
  lemma RemovalRevokes(s: State, ids: set<TokenId>, secret: Secret, t: TokenId)
    requires Sound(s) && Authenticates(s, secret, t)
    requires t in ids || (s.tokens[t].parent.Some? && s.tokens[t].parent.value in ids)
    ensures Dead(Without(s, ids), secret)
  {
    hide KeysSound, SessionsSound;
  }

  /** The secret the event draws for a key. */
  function Drawn(e: Event): Option<Secret> {
    match e
    case Collect(_, _, _, _, secret, _) => Some(secret)
    case Issue(_, _, _, _, _, _, secret) => Some(secret)
    case Create(_, _, _, secret) => Some(secret)
    case _ => None
  }

  lemma DeadStep(s: State, e: Event, secret: Secret)
    requires Dead(s, secret) && Drawn(e) != Some(secret)
    ensures Dead(Next(s, e), secret)
  {
    hide Next, Drawn;
    forall t | Authenticates(Next(s, e), secret, t) ensures Authenticates(s, secret, t) {
      SecretsComeFrom(s, e, t);
    }
  }

  /** Every secret in the table was there before or has just been drawn. */
  lemma SecretsComeFrom(s: State, e: Event, t: TokenId)
    requires t in Next(s, e).tokens
    ensures (t in s.tokens && s.tokens[t].secret == Next(s, e).tokens[t].secret)
            || Drawn(e) == Some(Next(s, e).tokens[t].secret)
  {
    hide NormalizeUserCode, FirstFree, NameTaken, KeysOf, IsChild;
    if e.Issue? && !(exists v :: IsChild(s, v, e.parent, e.project)) {
      MintedIs(s, e.id, Token(e.user, e.name, e.secret, Scoped, Some(e.parent), Some(e.project)));
    }
  }

  /** A secret that was replaced or revoked authenticates nothing ever again, unless it is drawn once more. */
  lemma {:induction false} RevokedStaysDead(es: seq<Event>, k: nat, secret: Secret)
    requires Legal(es) && k <= |es| && Legal(es[..k]) && Dead(After(es[..k]), secret)
    requires forall j | k <= j < |es| :: Drawn(es[j]) != Some(secret)
    ensures Dead(After(es), secret)
    decreases |es|
  {
    hide Dead, Drawn, Next, Fresh;
    if k == |es| {
      assert es[..k] == es;
    } else {
      var prior := es[..|es| - 1];
      assert prior[..k] == es[..k];
      RevokedStaysDead(prior, k, secret);
      DeadStep(After(prior), es[|es| - 1], secret);
    }
  }

  // ----- What the log says about a sign-in -----

  /** How a device began: the code it shows, the flow it asked for, and when. */
  datatype Beginning = Beginning(code: string, flow: Flow, at: Time)

  ghost function Begun(es: seq<Event>): map<Secret, Beginning>
    requires Legal(es)
  {
    if es == [] then map[]
    else BegunBy(Begun(es[..|es| - 1]), After(es[..|es| - 1]), es[|es| - 1])
  }

  ghost function BegunBy(begun: map<Secret, Beginning>, s: State, e: Event): map<Secret, Beginning> {
    if e.Begin? && e.device in Next(s, e).sessions
    then begun[e.device := Beginning(Next(s, e).sessions[e.device].code, e.flow, e.at)] else begun
  }

  /** Approval in time by somebody who types the code: for a project they may write to, or for the flow itself. */
  predicate Approves(e: Event, b: Beginning) {
    || (&& e.ApproveInit? && b.flow == Init && NormalizeUserCode(e.code) == b.code && e.at < b.at + 600_000_000
        && e.access == Writer && e.inWorkspace)
    || (&& e.ApproveFlow? && b.flow == e.flow && b.flow != Init && NormalizeUserCode(e.code) == b.code
        && e.at < b.at + 600_000_000)
  }

  predicate Denies(e: Event, b: Beginning) {
    e.Deny? && NormalizeUserCode(e.code) == b.code && e.at < b.at + 600_000_000
  }

  /** Where a sign-in stands. */
  datatype Fate =
    | Gone
    | Waiting
    | ApprovedBy(user: User, project: Option<Project>)
    | Rejected
    | Spent(id: TokenId)

  /** The person may have another key of the name. */
  ghost predicate MayMint(s: State, u: User, name: string) {
    && name != "" && |set t | t in s.tokens && s.tokens[t].user == u| < 20
    && !exists t <- s.tokens :: s.tokens[t].user == u && s.tokens[t].name == name
  }

  /** The event removes the key, on its owner's wish or otherwise, or removes the key it was issued under. */
  predicate Removes(s: State, e: Event, t: TokenId) {
    t in s.tokens &&
    match e
    case Delete(u, id) =>
      id in s.tokens && s.tokens[id].user == u && (t == id || s.tokens[t].parent == Some(id))
    case Drop(ids) => t in ids || (s.tokens[t].parent.Some? && s.tokens[t].parent.value in ids)
    case _ => false
  }

  /** What one event does to one sign-in. */
  ghost function Turn(s: State, e: Event, d: Secret, b: Beginning, f: Fate): Fate {
    match e
    case Begin(device, _, _, at) =>
      if device == d then (if d in Next(s, e).sessions then Waiting else Gone)
      else if b.at + 4_200_000_000 < at then Gone else f
    case ApproveInit(_, u, project, _, _, _) =>
      if f == Waiting && Approves(e, b) then ApprovedBy(u, Some(project)) else f
    case ApproveFlow(_, u, _, _) => if f == Waiting && Approves(e, b) then ApprovedBy(u, None) else f
    case Deny(_, _) => if f == Waiting && Denies(e, b) then Rejected else f
    case Collect(device, access, id, name, _, at) =>
      if device != d || !f.ApprovedBy? || at >= b.at + 600_000_000 then f
      else if b.flow == Init && access != Writer then Rejected
      else if MayMint(s, f.user, name) then Spent(id)
      else f
    case Issue(_, _, _, _, _, _, _) => f
    case Create(_, _, _, _) => f
    case Delete(_, _) => if f.Spent? && Removes(s, e, f.id) then Gone else f
    case Drop(_) => if f.Spent? && Removes(s, e, f.id) then Gone else f
    case Forget(devices) => if d in devices then Gone else f
  }

  const NOBODY := Beginning("", Init, 0)

  ghost function BeginningOf(es: seq<Event>, d: Secret): Beginning
    requires Legal(es)
  {
    if d in Begun(es) then Begun(es)[d] else NOBODY
  }

  /** The fate of a sign-in, told by the run alone. */
  ghost function FateOf(es: seq<Event>, d: Secret): Fate
    requires Legal(es)
  {
    if es == [] then Gone
    else
      var prior := es[..|es| - 1];
      Turn(After(prior), es[|es| - 1], d, BeginningOf(prior, d), FateOf(prior, d))
  }

  /** The row of a sign-in says where it stands. */
  ghost predicate Told(s: State, d: Secret, begun: map<Secret, Beginning>, f: Fate) {
    (d in s.sessions <==> f != Gone) &&
    (d in s.sessions ==>
       && d in begun
       && var x, b := s.sessions[d], begun[d];
       && x.code == b.code && x.flow == b.flow && x.expires == b.at + 600_000_000
       && (x.status == Pending <==> f == Waiting) && (x.status == Denied <==> f == Rejected)
       && (x.status == Approved <==> f.ApprovedBy?) && (x.status == Collected <==> f.Spent?)
       && (f == Waiting ==> x.project.None?)
       && (f.ApprovedBy? ==> x.approver == Some(f.user) && x.project == f.project)
       && (f.Spent? ==> x.token == Some(f.id)))
  }

  /** A new device, or the sweep of old ones. */
  lemma BeginTold(s: State, e: Event, d: Secret, begun: map<Secret, Beginning>, f: Fate)
    requires Told(s, d, begun, f) && e.Begin? && e.device !in s.sessions
    ensures Told(Next(s, e), d, BegunBy(begun, s, e), Turn(s, e, d, if d in begun then begun[d] else NOBODY, f))
  {
    hide NormalizeUserCode, FirstFree;
  }

  /** Approval and denial by code, of which at most one session has any. */
  lemma DecisionTold(s: State, e: Event, d: Secret, begun: map<Secret, Beginning>, f: Fate)
    requires Told(s, d, begun, f) && (e.ApproveInit? || e.ApproveFlow? || e.Deny?)
    ensures Told(Next(s, e), d, BegunBy(begun, s, e), Turn(s, e, d, if d in begun then begun[d] else NOBODY, f))
  {
    hide NormalizeUserCode;
  }

  lemma CollectTold(s: State, e: Event, d: Secret, begun: map<Secret, Beginning>, f: Fate)
    requires Told(s, d, begun, f) && e.Collect?
    ensures Told(Next(s, e), d, BegunBy(begun, s, e), Turn(s, e, d, if d in begun then begun[d] else NOBODY, f))
  {
    hide NormalizeUserCode;
    if f.ApprovedBy? {
      MintExactly(s, e.id, f.user, e.name);
    }
  }

  lemma MintExactly(s: State, id: TokenId, u: User, name: string)
    ensures forall key: Token | key.user == u && key.name == name ::
              Minted(s, id, key).Committed? <==> MayMint(s, u, name)
  {
    assert KeysOf(s.tokens, u) == set t | t in s.tokens && s.tokens[t].user == u;
  }

  /** Keys that go take the sessions that minted them along. */
  lemma KeysTold(s: State, e: Event, d: Secret, begun: map<Secret, Beginning>, f: Fate)
    requires Told(s, d, begun, f) && (e.Issue? || e.Create? || e.Delete? || e.Drop? || e.Forget?)
    requires d in s.sessions ==> SessionSound(s.tokens, s.sessions[d])
    ensures Told(Next(s, e), d, BegunBy(begun, s, e), Turn(s, e, d, if d in begun then begun[d] else NOBODY, f))
  {
    hide NormalizeUserCode, NameTaken, KeysOf;
  }

  lemma SessionOf(s: State, d: Secret)
    requires SessionsSound(s)
    ensures d in s.sessions ==> SessionSound(s.tokens, s.sessions[d])
  {
  }

  lemma StepTold(s: State, used: set<Secret>, e: Event, d: Secret, begun: map<Secret, Beginning>, f: Fate)
    requires Told(s, d, begun, f) && Sound(s) && s.sessions.Keys <= used && Fresh(s, used, e)
    ensures Told(Next(s, e), d, BegunBy(begun, s, e), Turn(s, e, d, if d in begun then begun[d] else NOBODY, f))
  {
    hide Told, Next, Turn, BegunBy, KeysSound, SecretsUnique, SessionsSound, NewSecret;
    SessionOf(s, d);
    if e.Begin? {
      BeginTold(s, e, d, begun, f);
    } else if e.ApproveInit? || e.ApproveFlow? || e.Deny? {
      DecisionTold(s, e, d, begun, f);
    } else if e.Collect? {
      CollectTold(s, e, d, begun, f);
    } else {
      KeysTold(s, e, d, begun, f);
    }
  }

  /** In every run the row of each sign-in says exactly what its own events made of it: sign-ins do not meet. */
  lemma {:induction false} SessionsFollowLog(es: seq<Event>)
    requires Legal(es)
    ensures forall d :: Told(After(es), d, Begun(es), FateOf(es, d))
  {
    if es != [] {
      hide Told, Next, Turn, BegunBy, Sound, Fresh, Counts, Grants;
      var prior, e := es[..|es| - 1], es[|es| - 1];
      SessionsFollowLog(prior);
      OneKeyPerSession(prior, "");
      CountsKeys(After(prior), Used(prior), "", Granted(prior, ""));
      forall d | true ensures Told(After(es), d, Begun(es), FateOf(es, d)) {
        StepTold(After(prior), Used(prior), e, d, Begun(prior), FateOf(prior, d));
      }
    }
  }

  /** What kind of key each flow hands out. */
  predicate KindFor(flow: Flow, kind: Kind) {
    || (flow == Init && kind == Scoped) || (flow == Login && kind == Setup)
    || (flow == Manage && kind == Personal) || (flow == App && kind == Desktop)
  }

  /** The one key that a poll may add. */
  predicate Handed(before: State, after: State, e: Event, u: User, flow: Flow, project: Option<Project>)
    requires e.Collect?
  {
    && e.id in after.tokens && after.tokens == before.tokens[e.id := after.tokens[e.id]]
    && var key := after.tokens[e.id];
    && key.user == u && key.name == e.name && key.secret == e.secret && KindFor(flow, key.kind)
    && key.parent.None? && key.project == project
  }

  /**
   * What a poll answers, from the run alone: a key exactly once the sign-in was approved, in time, while the person
   * may have it and, for a project, may still write to it. The key belongs to the one who approved, is of the kind
   * of the flow, and is bound to the approved project.
   */
  lemma PollExactly(es: seq<Event>)
    requires es != [] && Legal(es) && es[|es| - 1].Collect?
    ensures var prior, e := es[..|es| - 1], es[|es| - 1];
            var s, b, f := After(prior), BeginningOf(prior, e.device), FateOf(prior, e.device);
            var inTime, lost := e.at < b.at + 600_000_000, b.flow == Init && e.access != Writer;
            match Polled(s, e.device, e.access, e.id, e.name, e.secret, e.at)
            case Grant(id, after) =>
              && f.ApprovedBy? && inTime && !lost && MayMint(s, f.user, e.name)
              && id == e.id && after == After(es) && Handed(s, after, e, f.user, b.flow, f.project)
            case Answer(error, after) =>
              && after == After(es) && after.tokens == s.tokens
              && (error == AuthorizationPending <==> f == Waiting && inTime)
              && (error == AuthorizationDenied <==> f == Rejected || (f.ApprovedBy? && inTime && lost))
              && (error == Expired <==> f == Gone || f.Spent? || (!inTime && (f == Waiting || f.ApprovedBy?)))
              && !(f.ApprovedBy? && inTime && !lost && MayMint(s, f.user, e.name))
  {
    hide Legal, After, Begun, FateOf, Told, Sound, NameTaken, KeysOf, MayMint;
    var prior, e := es[..|es| - 1], es[|es| - 1];
    LegalStep(es);
    SessionsFollowLog(prior);
    var f := FateOf(prior, e.device);
    ToldRow(After(prior), e.device, Begun(prior), f);
    ProjectOfFate(prior, e.device);
    if f.ApprovedBy? {
      MintExactly(After(prior), e.id, f.user, e.name);
    }
  }

  lemma ToldRow(s: State, d: Secret, begun: map<Secret, Beginning>, f: Fate)
    requires Told(s, d, begun, f)
    ensures d in s.sessions <==> f != Gone
    ensures d in s.sessions ==>
              && d in begun && s.sessions[d].code == begun[d].code && s.sessions[d].flow == begun[d].flow
              && s.sessions[d].expires == begun[d].at + 600_000_000
    ensures f.ApprovedBy? ==>
              s.sessions[d].status == Approved && s.sessions[d].approver == Some(f.user)
              && s.sessions[d].project == f.project
    ensures d in s.sessions ==>
              && (s.sessions[d].status == Pending <==> f == Waiting)
              && (s.sessions[d].status == Denied <==> f == Rejected)
              && (s.sessions[d].status == Collected <==> f.Spent?)
  {
  }

  lemma LegalStep(es: seq<Event>)
    requires es != [] && Legal(es)
    ensures var prior, e := es[..|es| - 1], es[|es| - 1];
            Legal(prior) && Fresh(After(prior), Used(prior), e) && After(es) == Next(After(prior), e)
  {
    hide Next, Fresh;
  }

  /** Approval in the flow for projects names one, and no other does. */
  lemma {:induction false} ProjectOfFate(es: seq<Event>, d: Secret)
    requires Legal(es)
    ensures FateOf(es, d).ApprovedBy? ==> (FateOf(es, d).project.Some? <==> BeginningOf(es, d).flow == Init)
    ensures FateOf(es, d).ApprovedBy? ==> d in Begun(es)
  {
    hide Next, Removes, MayMint, NormalizeUserCode;
    if es != [] {
      var prior, e := es[..|es| - 1], es[|es| - 1];
      LegalStep(es);
      ProjectOfFate(prior, d);
      SessionsFollowLog(prior);
      assert Told(After(prior), d, Begun(prior), FateOf(prior, d));
    }
  }

  /** The k-th event approved the sign-in for this person and this project, if any. */
  ghost predicate ApprovedAt(es: seq<Event>, k: nat, d: Secret, u: User, project: Option<Project>)
    requires Legal(es) && k < |es|
  {
    && Approves(es[k], BeginningOf(es, d)) && es[k].user == u
    && project == (if es[k].ApproveInit? then Some(es[k].project) else None)
  }

  /** Behind every approved sign-in stand the event that began it and, later, the one that approved it. */
  lemma {:induction false} ApprovedByEvents(es: seq<Event>, d: Secret)
    requires Legal(es)
    ensures d in Begun(es) ==>
              exists i | 0 <= i < |es| ::
                es[i].Begin? && es[i].device == d && es[i].flow == Begun(es)[d].flow && es[i].at == Begun(es)[d].at
    ensures FateOf(es, d).ApprovedBy? ==>
              exists k | 0 <= k < |es| :: ApprovedAt(es, k, d, FateOf(es, d).user, FateOf(es, d).project)
  {
    hide Next, Removes, MayMint, Approves, Fresh;
    if es != [] {
      var prior, e := es[..|es| - 1], es[|es| - 1];
      LegalStep(es);
      ApprovedByEvents(prior, d);
      if d in Begun(es) && !(e.Begin? && e.device == d) {
        var i :| 0 <= i < |prior| && prior[i].Begin? && prior[i].device == d
                 && prior[i].flow == Begun(prior)[d].flow && prior[i].at == Begun(prior)[d].at;
        assert es[i] == prior[i];
      } else if d in Begun(es) {
        assert es[|es| - 1] == e;
      }
      if FateOf(es, d).ApprovedBy? {
        assert BeginningOf(es, d) == BeginningOf(prior, d);
        if FateOf(prior, d) == FateOf(es, d) {
          var k :| 0 <= k < |prior| && ApprovedAt(prior, k, d, FateOf(es, d).user, FateOf(es, d).project);
          assert ApprovedAt(es, k, d, FateOf(es, d).user, FateOf(es, d).project);
        } else {
          assert ApprovedAt(es, |es| - 1, d, FateOf(es, d).user, FateOf(es, d).project);
        }
      }
    }
  }

  /**
   * A key handed to a device was approved, while its sign-in was less than ten minutes old, by the person it belongs
   * to, who typed its code. In the flow for projects the approval named the project the key is bound to, and both the
   * approval and the poll found that person able to write to it; in the other flows the key has no project.
   */
  lemma GrantWasApproved(es: seq<Event>)
    requires es != [] && Legal(es) && es[|es| - 1].Collect?
    requires Grants(After(es[..|es| - 1]), es[|es| - 1], es[|es| - 1].device)
    ensures var prior, e := es[..|es| - 1], es[|es| - 1];
            exists i, k | 0 <= i < |prior| && 0 <= k < |prior| ::
              && prior[i].Begin? && prior[i].device == e.device && e.at < prior[i].at + 600_000_000
              && (prior[k].ApproveInit? || prior[k].ApproveFlow?) && prior[k].at < prior[i].at + 600_000_000
              && e.id in After(es).tokens && var key := After(es).tokens[e.id];
              && key.user == prior[k].user && KindFor(prior[i].flow, key.kind) && key.parent.None?
              && (if prior[i].flow == Init then
                    && prior[k].ApproveInit? && key.project == Some(prior[k].project)
                    && prior[k].access == Writer && prior[k].inWorkspace && e.access == Writer
                  else prior[k].ApproveFlow? && prior[k].flow == prior[i].flow && key.project.None?)
  {
    hide Legal, After, Begun, FateOf, Polled, MayMint, NormalizeUserCode;
    var prior, e := es[..|es| - 1], es[|es| - 1];
    LegalStep(es);
    PollExactly(es);
    ProjectOfFate(prior, e.device);
    ApprovedByEvents(prior, e.device);
    var f := FateOf(prior, e.device);
    var k :| 0 <= k < |prior| && ApprovedAt(prior, k, e.device, f.user, f.project);
    var i :| 0 <= i < |prior| && prior[i].Begin? && prior[i].device == e.device
             && prior[i].flow == Begun(prior)[e.device].flow && prior[i].at == Begun(prior)[e.device].at;
  }

  /**
   * A decision is taken exactly if some waiting sign-in shows the code and is of the flow, in time, by somebody who
   * may.
   */
  lemma DecisionExactly(es: seq<Event>)
    requires es != [] && Legal(es) && (es[|es| - 1].ApproveInit? || es[|es| - 1].ApproveFlow? || es[|es| - 1].Deny?)
    ensures var prior, e := es[..|es| - 1], es[|es| - 1];
            Decided(After(prior), e) <==>
            exists d :: FateOf(prior, d) == Waiting &&
                        (Approves(e, BeginningOf(prior, d)) || Denies(e, BeginningOf(prior, d)))
  {
    hide Legal, After, Begun, FateOf, Told, NormalizeUserCode;
    var prior, e := es[..|es| - 1], es[|es| - 1];
    LegalStep(es);
    var s := After(prior);
    SessionsFollowLog(prior);
    forall d | true
      ensures Told(s, d, Begun(prior), FateOf(prior, d))
      ensures d in s.sessions <==> FateOf(prior, d) != Gone
      ensures d in s.sessions ==> d in Begun(prior) && s.sessions[d].code == BeginningOf(prior, d).code
                                  && s.sessions[d].flow == BeginningOf(prior, d).flow
                                  && s.sessions[d].expires == BeginningOf(prior, d).at + 600_000_000
                                  && (s.sessions[d].status == Pending <==> FateOf(prior, d) == Waiting)
    {
      ToldRow(s, d, Begun(prior), FateOf(prior, d));
    }
    if d :| FateOf(prior, d) == Waiting && (Approves(e, BeginningOf(prior, d)) || Denies(e, BeginningOf(prior, d))) {
      assert d in s.sessions && Open(s.sessions[d], e.code, e.at);
    }
  }

  predicate Decided(s: State, e: Event)
    requires e.ApproveInit? || e.ApproveFlow? || e.Deny?
  {
    match e
    case ApproveInit(code, u, project, access, inWorkspace, at) =>
      ApprovedInit(s, code, u, project, access, inWorkspace, at).Committed?
    case ApproveFlow(code, u, flow, at) => ApprovedUnscoped(s, code, u, flow, at).Committed?
    case Deny(code, at) => DeniedByCode(s, code, at).Committed?
  }

  /** The code is shown by a sign-in that was neither dropped nor began more than seventy minutes ago. */
  ghost predicate Shown(es: seq<Event>, code: string, now: Time)
    requires Legal(es)
  {
    exists d :: FateOf(es, d) != Gone && BeginningOf(es, d).code == code && now <= BeginningOf(es, d).at + 4_200_000_000
  }

  /** A new sign-in shows the first of its drawn codes that no other shows, and begins exactly if there is one. */
  lemma BeginExactly(es: seq<Event>)
    requires es != [] && Legal(es) && es[|es| - 1].Begin?
    ensures var prior, e := es[..|es| - 1], es[|es| - 1];
            && (FateOf(es, e.device) == Waiting <==> exists k | 0 <= k < |e.draws| :: !Shown(prior, e.draws[k], e.at))
            && (FateOf(es, e.device) == Waiting ==>
                exists k | 0 <= k < |e.draws| :: BeginningOf(es, e.device) == Beginning(e.draws[k], e.flow, e.at)
                  && !Shown(prior, e.draws[k], e.at) && forall j | 0 <= j < k :: Shown(prior, e.draws[j], e.at))
  {
    hide Legal, After, Told, FirstFree, Shown, Sound, Counts, Granted;
    var prior, e := es[..|es| - 1], es[|es| - 1];
    LegalStep(es);
    OneKeyPerSession(prior, "");
    CountsKeys(After(prior), Used(prior), "", Granted(prior, ""));
    var t := Swept(After(prior), e.at);
    forall code: string | true ensures CodeTaken(t.sessions, code) <==> Shown(prior, code, e.at) {
      TakenIsShown(prior, code, e.at);
    }
    FirstFreeIsFree(t.sessions, e.draws);
    if FirstFree(t.sessions, e.draws).Some? {
      var k := FirstFreeIsFirst(t.sessions, e.draws);
    }
  }

  lemma TakenIsShown(es: seq<Event>, code: string, now: Time)
    requires Legal(es)
    ensures CodeTaken(Swept(After(es), now).sessions, code) <==> Shown(es, code, now)
  {
    hide Legal, After, Begun, FateOf, Told;
    SessionsFollowLog(es);
    var s := After(es);
    forall d | true
      ensures d in s.sessions <==> FateOf(es, d) != Gone
      ensures d in s.sessions ==> d in Begun(es) && s.sessions[d].code == BeginningOf(es, d).code
                                  && s.sessions[d].expires == BeginningOf(es, d).at + 600_000_000
    {
      assert Told(s, d, Begun(es), FateOf(es, d));
      ToldRow(s, d, Begun(es), FateOf(es, d));
    }
    var t := Swept(s, now).sessions;
    if d :| d in t && t[d].code == code {
      assert FateOf(es, d) != Gone && BeginningOf(es, d).code == code;
    }
    if d :| FateOf(es, d) != Gone && BeginningOf(es, d).code == code && now <= BeginningOf(es, d).at + 4_200_000_000 {
      assert d in t && t[d].code == code;
    }
  }

  lemma {:induction false} FirstFreeIsFirst(sessions: map<Secret, Session>, draws: seq<string>) returns (k: nat)
    requires FirstFree(sessions, draws).Some?
    ensures k < |draws| && FirstFree(sessions, draws) == Some(draws[k]) && !CodeTaken(sessions, draws[k])
    ensures forall j | 0 <= j < k :: CodeTaken(sessions, draws[j])
  {
    if CodeTaken(sessions, draws[0]) {
      k := FirstFreeIsFirst(sessions, draws[1..]);
      k := k + 1;
      assert draws == [draws[0]] + draws[1..];
    } else {
      k := 0;
    }
  }

  // ----- What each event does to keys -----

  /** The person may ask, with this setup key, for a key to the project. */
  predicate MayIssue(s: State, u: User, parent: TokenId, access: Access) {
    parent in s.tokens && s.tokens[parent].user == u && s.tokens[parent].kind == Setup && access == Writer
  }

  predicate HasChild(s: State, parent: TokenId, project: Project) {
    exists t <- s.tokens :: s.tokens[t].parent == Some(parent) && s.tokens[t].project == Some(project)
  }

  /** The key the event adds. */
  ghost function Added(s: State, e: Event): Option<Token> {
    match e
    case Create(u, _, name, secret) =>
      if MayMint(s, u, name) then Some(Token(u, name, secret, Personal, None, None)) else None
    case Issue(u, parent, project, access, _, name, secret) =>
      if MayIssue(s, u, parent, access) && !HasChild(s, parent, project) && MayMint(s, u, name)
      then Some(Token(u, name, secret, Scoped, Some(parent), Some(project))) else None
    case _ => None
  }

  /** The key is given a new secret. */
  predicate Rotates(s: State, e: Event, t: TokenId)
    requires t in s.tokens
  {
    && e.Issue? && MayIssue(s, e.user, e.parent, e.access)
    && s.tokens[t].parent == Some(e.parent) && s.tokens[t].project == Some(e.project)
  }

  /** Keys come, go and change by nothing but the event that says so. */
  lemma KeysOfNext(s: State, used: set<Secret>, e: Event, t: TokenId)
    requires Sound(s) && Fresh(s, used, e)
    requires e.Collect? ==> !Grants(s, e, e.device)
    ensures var next := Next(s, e).tokens;
            && (t in next <==>
                (t in s.tokens && !Removes(s, e, t)) || ((e.Create? || e.Issue?) && t == e.id && Added(s, e).Some?))
            && (t in s.tokens && t in next ==>
                next[t] == if Rotates(s, e, t) then s.tokens[t].(secret := e.secret) else s.tokens[t])
            && (t !in s.tokens && t in next ==> next[t] == Added(s, e).value)
  {
    hide NormalizeUserCode, FirstFree, NameTaken, KeysOf, MayMint, SessionsSound, SecretsUnique, NewSecret;
    if e.Create? {
      MintExactly(s, e.id, e.user, e.name);
    } else if e.Issue? {
      MintExactly(s, e.id, e.user, e.name);
      IssueKeys(s, e, t);
    }
  }

  lemma IssueKeys(s: State, e: Event, t: TokenId)
    requires KeysSound(s.tokens) && e.Issue? && e.id !in s.tokens
    ensures var next := Next(s, e).tokens;
            && (t in next <==> t in s.tokens || (t == e.id && Added(s, e).Some?))
            && (t in s.tokens && t in next ==>
                next[t] == if Rotates(s, e, t) then s.tokens[t].(secret := e.secret) else s.tokens[t])
            && (t !in s.tokens && t in next ==> next[t] == Added(s, e).value)
  {
    hide NameTaken, KeysOf, MayMint;
    MintExactly(s, e.id, e.user, e.name);
    var o := Issued(s, e.user, e.parent, e.project, e.access, e.id, e.name, e.secret);
    if child :| IsChild(s, child, e.parent, e.project) {
      OnlyChild(s, e.parent, e.project, child);
      assert HasChild(s, e.parent, e.project);
      if MayIssue(s, e.user, e.parent, e.access) {
        assert o == Committed(s.(tokens := s.tokens[child := s.tokens[child].(secret := e.secret)]));
      }
    } else {
      assert forall v <- s.tokens :: !IsChild(s, v, e.parent, e.project);
      if MayIssue(s, e.user, e.parent, e.access) {
        MintedIs(s, e.id, Token(e.user, e.name, e.secret, Scoped, Some(e.parent), Some(e.project)));
      }
    }
  }

  // ----- The store -----

  ghost predicate Ends(o: Outcome, before: State, after: State, error: Option<Error>) {
    match o
    case Committed(t) => after == t && error.None?
    case Refused(e) => after == before && error == Some(e)
  }

  method NormalizedUserCode(code: string) returns (r: string)
    ensures r == NormalizeUserCode(code)
  {
    r := "";
    for n := 0 to |code|
      invariant r == NormalizeUserCode(code[..n])
    {
      assert code[..n + 1][..n] == code[..n];
      var c := UpperChar(code[n]);
      if c in ALPHABET {
        r := r + [c];
      }
    }
    assert code[..|code|] == code;
  }

  class Store {
    var tokens: map<TokenId, Token>
    var sessions: map<Secret, Session>

    function Tables(): State
      reads this
    {
      State(tokens, sessions)
    }

    constructor ()
      ensures Tables() == EMPTY
    {
      tokens, sessions := map[], map[];
    }

    method CreateAPIToken(id: TokenId, key: Token) returns (error: Option<Error>)
      modifies this`tokens
      ensures Ends(Minted(old(Tables()), id, key), old(Tables()), Tables(), error)
    {
      if key.name == "" {
        return Some(Unnamed);
      }
      if |KeysOf(tokens, key.user)| >= LIMIT {
        return Some(TokenLimit);
      }
      if NameTaken(tokens, key.user, key.name) {
        return Some(Duplicate);
      }
      tokens := tokens[id := key];
      return None;
    }

    method DeleteAPIToken(u: User, id: TokenId) returns (error: Option<Error>)
      modifies this
      ensures Ends(Deleted(old(Tables()), u, id), old(Tables()), Tables(), error)
    {
      if id !in tokens || tokens[id].user != u {
        return Some(NotFound);
      }
      RevokeAPITokenByID(id);
      return None;
    }

    /** Children go with their parent, and so do the sessions that minted any of them. */
    method RevokeAPITokenByID(id: TokenId)
      modifies this
      ensures Tables() == Without(old(Tables()), {id})
    {
      var gone := {id} + set t | t in tokens && tokens[t].parent.Some? && tokens[t].parent.value in {id};
      tokens := tokens - gone;
      sessions := map d <- sessions | !(sessions[d].token.Some? && sessions[d].token.value in gone) :: sessions[d];
    }

    method LookupAPIToken(secret: Secret) returns (r: Option<TokenId>)
      ensures r.Some? ==> Authenticates(Tables(), secret, r.value)
      ensures r.None? ==> forall t :: !Authenticates(Tables(), secret, t)
    {
      if t :| t in tokens && tokens[t].secret == secret {
        return Some(t);
      }
      return None;
    }

    method IssueProjectToken(u: User, parent: TokenId, project: Project, access: Access, id: TokenId, name: string,
                             secret: Secret)
      returns (error: Option<Error>)
      requires OneKeyPerProject(tokens)
      modifies this`tokens
      ensures Ends(Issued(old(Tables()), u, parent, project, access, id, name, secret), old(Tables()), Tables(), error)
    {
      if parent !in tokens || tokens[parent].user != u || tokens[parent].kind != Setup || access == NoAccess {
        return Some(NotFound);
      }
      if access == ReadOnly {
        return Some(Forbidden);
      }
      if t :| t in tokens && IsChild(Tables(), t, parent, project) {
        OnlyChild(Tables(), parent, project, t);
        tokens := tokens[t := tokens[t].(secret := secret)];
        return None;
      }
      assert forall t :: IsChild(Tables(), t, parent, project) ==> t in tokens;
      error := CreateAPIToken(id, Token(u, name, secret, Scoped, Some(parent), Some(project)));
    }

    /** Tries one drawn code after another; five collisions give up. */
    method CreateCLISession(device: Secret, draws: seq<string>, flow: Flow, now: Time) returns (code: Option<string>)
      modifies this`sessions
      ensures Tables() == Opened(old(Tables()), device, draws, flow, now)
      ensures code == FirstFree(Swept(old(Tables()), now).sessions, draws)
    {
      sessions := map d <- sessions | sessions[d].expires >= now - KEPT :: sessions[d];
      for n := 0 to |draws|
        invariant sessions == Swept(old(Tables()), now).sessions
        invariant FirstFree(sessions, draws[n..]) == FirstFree(sessions, draws)
      {
        if !CodeTaken(sessions, draws[n]) {
          sessions := sessions[device := Session(draws[n], flow, Pending, now + TTL, None, None, None)];
          return Some(draws[n]);
        }
        assert draws[n..][1..] == draws[n + 1..];
      }
      return None;
    }

    method ApproveCLISession(code: string, u: User, project: Project, access: Access, inWorkspace: bool, now: Time)
      returns (error: Option<Error>)
      requires SessionsSound(Tables())
      modifies this`sessions
      ensures Ends(ApprovedInit(old(Tables()), code, u, project, access, inWorkspace, now), old(Tables()), Tables(),
                   error)
    {
      hide NormalizeUserCode;
      if d :| d in sessions && Open(sessions[d], code, now) && sessions[d].flow == Init {
        if access == NoAccess {
          return Some(NotFound);
        }
        if access == ReadOnly || !inWorkspace {
          return Some(Forbidden);
        }
        OnlyOpen(Tables(), code, now, d);
        sessions := sessions[d := sessions[d].(status := Approved, approver := Some(u), project := Some(project))];
        return None;
      }
      return Some(NotFound);
    }

    method ApproveCLIUnscoped(code: string, u: User, flow: Flow, now: Time) returns (error: Option<Error>)
      modifies this`sessions
      ensures Ends(ApprovedUnscoped(old(Tables()), code, u, flow, now), old(Tables()), Tables(), error)
    {
      hide NormalizeUserCode;
      if flow == Init {
        return Some(Forbidden);
      }
      if !exists d <- sessions :: Open(sessions[d], code, now) && sessions[d].flow == flow {
        return Some(NotFound);
      }
      sessions := map d <- sessions ::
          if Open(sessions[d], code, now) && sessions[d].flow == flow
          then sessions[d].(status := Approved, approver := Some(u)) else sessions[d];
      return None;
    }

    method DenyCLISession(code: string, now: Time) returns (error: Option<Error>)
      modifies this`sessions
      ensures Ends(DeniedByCode(old(Tables()), code, now), old(Tables()), Tables(), error)
    {
      hide NormalizeUserCode;
      if !AnyOpen(Tables(), code, now) {
        return Some(NotFound);
      }
      sessions := map d <- sessions ::
        if Open(sessions[d], code, now) then sessions[d].(status := Denied) else sessions[d];
      return None;
    }

    method CollectCLISession(device: Secret, access: Access, id: TokenId, name: string, secret: Secret, now: Time)
      returns (r: Poll)
      requires SessionsSound(Tables())
      modifies this
      ensures r == Polled(old(Tables()), device, access, id, name, secret, now)
      ensures Tables() == r.after
    {
      hide SessionsSound;
      if device !in sessions {
        return Answer(Expired, Tables());
      }
      ApprovedHasApprover(Tables(), device);
      var x := sessions[device];
      if x.status == Denied {
        return Answer(AuthorizationDenied, Tables());
      }
      if x.status == Collected || x.expires <= now {
        return Answer(Expired, Tables());
      }
      if x.status == Pending {
        return Answer(AuthorizationPending, Tables());
      }
      if x.flow == Init && access != Writer {
        sessions := sessions[device := x.(status := Denied)];
        return Answer(AuthorizationDenied, Tables());
      }
      var project := if x.flow == Init then x.project else None;
      var error := CreateAPIToken(id, Token(x.approver.value, name, secret, KindOf(x.flow), None, project));
      if error.Some? {
        return Answer(error.value, Tables());
      }
      sessions := sessions[device := x.(status := Collected, token := Some(id))];
      return Grant(id, Tables());
    }
  }

  lemma OnlyChild(s: State, parent: TokenId, project: Project, t: TokenId)
    requires OneKeyPerProject(s.tokens) && IsChild(s, t, parent, project)
    ensures forall v :: IsChild(s, v, parent, project) ==> v == t
  {
    forall v | IsChild(s, v, parent, project) ensures v == t {
      assert SamePlace(s.tokens[v], s.tokens[t]);
    }
  }

  lemma OnlyOpen(s: State, code: string, now: Time, d: Secret)
    requires SessionsSound(s) && d in s.sessions && Open(s.sessions[d], code, now)
    ensures forall e <- s.sessions :: Open(s.sessions[e], code, now) ==> e == d
  {
    hide NormalizeUserCode;
  }
}
