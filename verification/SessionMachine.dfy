// Every request of the session protocol as a program counter over the shared
// tables, and every run as a sequence of events. Next is total: an event that
// is not enabled changes nothing, so every event sequence is a run, with any
// number of requests interleaved in any way.
module SessionMachine {
  import opened Clock
  import opened Options
  import opened UserStore

  type ReqId = nat

  const REFRESH_LIFETIME: Time := 7 * 24 * 3600 * 1_000_000_000

  const HOUR: Time := 3600 * 1_000_000_000

  // A password_reset JWT. stamp is the passwordChangedAt claim, in seconds.
  datatype ResetToken = ResetToken(id: nat, user: UserId, email: string, stamp: Option<int>, exp: Time)

  datatype Phase =
    // POST /auth/refresh
    | RefreshStarted(tok: RefreshToken)
    | BlockQuery(tok: RefreshToken, at: Time) // clock read for the block query
    | NotBlocked(tok: RefreshToken)
    | Unexpired(tok: RefreshToken)
    | UserFound(tok: RefreshToken)
    | Validated(tok: RefreshToken) // ValidateRefreshToken has returned
    | Refetched(tok: RefreshToken)
    | RefreshMinted(tok: RefreshToken, next: RefreshToken)
    | OldBlocked(tok: RefreshToken, next: RefreshToken)
    // login and the other flows that mint a pair and store it unconditionally
    | IssueReady(user: UserId)
    | IssueMinted(user: UserId, next: RefreshToken)
    | LogoutParsed(owner: UserId, tok: RefreshToken)
    // change password, after the current password was checked
    | PasswordReady(user: UserId)
    | PasswordTimed(user: UserId, at: Time)
    // POST /auth/reset-password
    | ResetStarted(key: ResetToken)
    | ResetUnexpired(key: ResetToken)
    | ResetChecked(key: ResetToken)
    | ResetRead(key: ResetToken, expected: Option<Time>)
    | ResetTimed(key: ResetToken, expected: Option<Time>, at: Time)
    // read row, edit, write every column back
    | Saving(user: UserId, row: UserRow)
    | Done

  // What has happened so far. No step reads it.
  datatype History = History(
    installs: multiset<RefreshToken>,     // times a token entered a refresh_token column
    accepted: set<(ReqId, RefreshToken)>, // successful ValidateRefreshToken calls
    exchanged: multiset<RefreshToken>,    // successful rotations, by old token
    resetUses: multiset<ResetToken>,
    commits: multiset<(UserId, Option<Time>)>) // reset commits, by the stamp they expected

  // minted only makes token identifiers unique.
  datatype State = State(
    db: Db,
    now: Time,
    requireVerified: bool,
    reqs: map<ReqId, Phase>,
    minted: set<RefreshToken>,
    log: History)

  datatype Event =
    | Tick(d: nat)
    | NewUser(user: UserId, row: UserRow) // also a deleted guest who joins again under the same id
    | BeginRefresh(r: ReqId, tok: RefreshToken)
    | BeginIssue(r: ReqId, user: UserId)
    | BeginLogout(r: ReqId, owner: UserId, tok: RefreshToken)
    | BeginPassword(r: ReqId, user: UserId)
    | BeginReset(r: ReqId, key: ResetToken)
    | BeginSave(r: ReqId, user: UserId, edited: UserRow)
    | Mint(r: ReqId, id: nat)
    | Step(r: ReqId)
    | SkipBlock(r: ReqId) // the block insert of a rotation failed, which is ignored
    | Abort(r: ReqId)     // any error return
    | Clear(user: UserId)
    | SetStatus(user: UserId, active: bool, clear: bool)
    | Cleanup(at: Time)
    | Delete(user: UserId)

  function Init(now: Time, requireVerified: bool): State {
    State(Db(map[], {}), now, requireVerified, map[], {}, History(multiset{}, {}, multiset{}, multiset{}, multiset{}))
  }

  function Goto(s: State, r: ReqId, p: Phase): State {
    s.(reqs := s.reqs[r := p])
  }

  // Notes what a statement on the row of u did to the refresh_token column.
  function NoteWrite(h: History, before: Option<RefreshToken>, after: Option<RefreshToken>): History {
    if before == after || after.None? then h else h.(installs := h.installs + multiset{after.value})
  }

  function Write(s: State, u: UserId, db': Db): State {
    s.(db := db', log := NoteWrite(s.log, Stored(s.db, u), Stored(db', u)))
  }

  function BlockToken(s: State, owner: UserId, t: RefreshToken): State {
    s.(db := Block(s.db, owner, t))
  }

  function NoteAccepted(s: State, r: ReqId, t: RefreshToken): State {
    s.(log := s.log.(accepted := s.log.accepted + {(r, t)}))
  }

  function NoteExchanged(s: State, t: RefreshToken): State {
    s.(log := s.log.(exchanged := s.log.exchanged + multiset{t}))
  }

  function NoteReset(s: State, k: ResetToken, expected: Option<Time>): State {
    s.(log := s.log.(resetUses := s.log.resetUses + multiset{k},
                     commits := s.log.commits + multiset{(k.user, expected)}))
  }

  // The stamp is in a later second than the token's claim; a nil claim is below all stamps.
  predicate After(c: Time, stamp: Option<int>) {
    stamp.None? || Unix(c) > stamp.value
  }

  predicate PassesStampCheck(changedAt: Option<Time>, key: ResetToken) {
    changedAt.None? || !After(changedAt.value, key.stamp)
  }

  // The row accepts a reset, whatever its stamp.
  predicate MayReset(db: Db, key: ResetToken) {
    key.user in db.users && (key.email == "" || key.email == db.users[key.user].email) && HasPasswordLogin(db.users[key.user])
  }

  // The handler's checks on the row of the token's user.
  predicate ResetAllowed(db: Db, key: ResetToken) {
    MayReset(db, key) && PassesStampCheck(db.users[key.user].passwordChangedAt, key)
  }

  predicate MayRefresh(s: State, u: UserId) {
    u in s.db.users && s.db.users[u].active && (s.requireVerified ==> s.db.users[u].verified)
  }

  // ValidateRefreshToken read in one piece.
  predicate Accepts(s: State, t: RefreshToken) {
    !IsBlocked(s.db, t, s.now) && t in s.minted && s.now < t.exp && CanSwap(s.db, t.user, t)
  }

  function Advance(s: State, r: ReqId): State
    requires r in s.reqs
  {
    var stop := Goto(s, r, Done);
    match s.reqs[r]
    case RefreshStarted(t) => Goto(s, r, BlockQuery(t, s.now))
    case BlockQuery(t, at) => if IsBlocked(s.db, t, at) then stop else Goto(s, r, NotBlocked(t))
    case NotBlocked(t) => if t in s.minted && s.now < t.exp then Goto(s, r, Unexpired(t)) else stop
    case Unexpired(t) => if t.user in s.db.users then Goto(s, r, UserFound(t)) else stop
    case UserFound(t) =>
      if CanSwap(s.db, t.user, t)
      then NoteAccepted(Goto(s, r, Validated(t)), r, t)
      else stop
    case Validated(t) => if MayRefresh(s, t.user) then Goto(s, r, Refetched(t)) else stop
    case RefreshMinted(t, next) =>
      var s1 := if s.now < t.exp then BlockToken(s, t.user, t) else s;
      Goto(s1, r, OldBlocked(t, next))
    case OldBlocked(t, next) =>
      if CanSwap(s.db, t.user, t)
      then NoteExchanged(Write(stop, t.user, SwapRefresh(s.db, t.user, t, next)), t)
      else stop
    case IssueMinted(u, next) => Write(stop, u, SetRefresh(s.db, u, Some(next)))
    case LogoutParsed(owner, t) => Goto(BlockToken(s, owner, t), r, Done)
    case PasswordReady(u) => Goto(s, r, PasswordTimed(u, s.now))
    case PasswordTimed(u, at) => Write(stop, u, SetPassword(s.db, u, at))
    case ResetStarted(k) => if s.now < k.exp then Goto(s, r, ResetUnexpired(k)) else stop
    case ResetUnexpired(k) =>
      if ResetAllowed(s.db, k) then Goto(s, r, ResetChecked(k)) else stop
    case ResetChecked(k) =>
      if k.user in s.db.users then Goto(s, r, ResetRead(k, s.db.users[k.user].passwordChangedAt)) else stop
    case ResetRead(k, expected) => Goto(s, r, ResetTimed(k, expected, s.now))
    case ResetTimed(k, expected, at) =>
      if CanReset(s.db, k.user, expected)
      then NoteReset(Write(stop, k.user, SetPasswordIfUnchanged(s.db, k.user, expected, at)), k, expected)
      else stop
    case Saving(u, row) => Write(stop, u, SetRow(s.db, u, row))
    case _ => s
  }

  function FreshToken(s: State, id: nat, u: UserId): RefreshToken {
    RefreshToken(id, u, NumericDate(s.now + REFRESH_LIFETIME))
  }

  // GenerateResetToken for the row of u: valid for the configured hours, or for one.
  function GenerateResetToken(s: State, u: UserId, id: nat, ttlHours: int): ResetToken
    requires u in s.db.users
  {
    var row := s.db.users[u];
    var stamp := match row.passwordChangedAt case None => None case Some(c) => Some(Unix(c));
    ResetToken(id, u, row.email, stamp, NumericDate(s.now + (if ttlHours > 0 then ttlHours else 1) * HOUR))
  }

  // GenerateTokenPair: the uuid is one no earlier token carries.
  function MintFor(s: State, r: ReqId, id: nat): State
    requires r in s.reqs
  {
    if exists m :: m in s.minted && m.id == id then s
    else match s.reqs[r]
      case Refetched(t) =>
        var n := FreshToken(s, id, t.user);
        Goto(s, r, RefreshMinted(t, n)).(minted := s.minted + {n})
      case IssueReady(u) =>
        var n := FreshToken(s, id, u);
        Goto(s, r, IssueMinted(u, n)).(minted := s.minted + {n})
      case _ => s
  }

  function Begin(s: State, r: ReqId, p: Phase): State {
    if r in s.reqs then s else Goto(s, r, p)
  }

  function Next(s: State, e: Event): State {
    match e
    case Tick(d) => s.(now := s.now + d)
    case NewUser(u, row) =>
      if u in s.db.users then s
      else s.(db := SetRow(s.db, u, row.(refresh := None, passwordChangedAt := None)))
    case BeginRefresh(r, t) => Begin(s, r, RefreshStarted(t))
    case BeginIssue(r, u) => Begin(s, r, IssueReady(u))
    case BeginLogout(r, owner, t) =>
      if t in s.minted && s.now < t.exp then Begin(s, r, LogoutParsed(owner, t)) else s
    case BeginPassword(r, u) => Begin(s, r, PasswordReady(u))
    case BeginReset(r, k) => Begin(s, r, ResetStarted(k))
    case BeginSave(r, u, edited) =>
      if u in s.db.users
      then Begin(s, r, Saving(u, edited.(refresh := s.db.users[u].refresh, passwordChangedAt := s.db.users[u].passwordChangedAt)))
      else s
    case Mint(r, id) => if r in s.reqs then MintFor(s, r, id) else s
    case Step(r) => if r in s.reqs then Advance(s, r) else s
    case SkipBlock(r) =>
      if r in s.reqs && s.reqs[r].RefreshMinted? then Goto(s, r, OldBlocked(s.reqs[r].tok, s.reqs[r].next)) else s
    case Abort(r) => if r in s.reqs then Goto(s, r, Done) else s
    case Clear(u) => Write(s, u, SetRefresh(s.db, u, None))
    case SetStatus(u, active, clear) => Write(s, u, SetActive(s.db, u, active, clear))
    case Cleanup(at) => if at <= s.now then s.(db := CleanupBlocked(s.db, at)) else s
    case Delete(u) => if u in s.db.users then Write(s, u, RemoveUser(s.db, u)) else s
  }

  function Run(s: State, es: seq<Event>): State {
    if es == [] then s else Next(Run(s, es[..|es| - 1]), es[|es| - 1])
  }

  lemma {:induction false} RunConcat(s: State, a: seq<Event>, b: seq<Event>)
    ensures Run(s, a + b) == Run(Run(s, a), b)
  {
    if b == [] {
      assert a + b == a;
    } else {
      assert (a + b)[..|a + b| - 1] == a + b[..|b| - 1];
      RunConcat(s, a, b[..|b| - 1]);
    }
  }

  // A full-record save that puts t back into a row that no longer holds it. The
  // writer can see this by comparing the row it read with the row in the table.
  predicate Returns(s: State, e: Event, t: RefreshToken) {
    e.Step? && e.r in s.reqs && s.reqs[e.r].Saving? &&
    s.reqs[e.r].row.refresh == Some(t) && Stored(s.db, s.reqs[e.r].user) != Some(t)
  }

  // How often a run puts t back.
  function ReturnCount(s: State, es: seq<Event>, t: RefreshToken): nat {
    if es == [] then 0
    else
      var front := es[..|es| - 1];
      ReturnCount(s, front, t) + (if Returns(Run(s, front), es[|es| - 1], t) then 1 else 0)
  }

  lemma {:induction false} ReturnCountConcat(s: State, a: seq<Event>, b: seq<Event>, t: RefreshToken)
    ensures ReturnCount(s, a + b, t) == ReturnCount(s, a, t) + ReturnCount(Run(s, a), b, t)
  {
    if b == [] {
      assert a + b == a;
    } else {
      assert (a + b)[..|a + b| - 1] == a + b[..|b| - 1];
      ReturnCountConcat(s, a, b[..|b| - 1], t);
      RunConcat(s, a, b[..|b| - 1]);
    }
  }
}
