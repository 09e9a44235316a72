// The users table and the blocked_refresh_tokens table, as the repository
// statements see them. Each function is one SQL statement, so one atomic step.
// Token strings are stored by SHA-256 hash; hashing is taken as injective, so a
// token stands for its own hash. The empty refresh_token column is None.
module UserStore {
  import opened Clock
  import opened Options

  type UserId = nat

  // A signed refresh JWT: the uuid, the user claim and the expiry.
  datatype RefreshToken = RefreshToken(id: nat, user: UserId, exp: Time)

  datatype Provider = Local | Passkey | Guest | OAuth

  // email is the canonical address; hasPassword says the password column is not empty.
  datatype UserRow = UserRow(
    email: string,
    provider: Provider,
    hasPassword: bool,
    refresh: Option<RefreshToken>,
    active: bool,
    verified: bool,
    passwordChangedAt: Option<Time>)

  // Accounts that may set, change or reset a password.
  predicate HasPasswordLogin(row: UserRow) { row.provider == Local || row.provider == Passkey }

  // owner is the user_id column: the user who asked for the block.
  datatype BlockRow = BlockRow(token: RefreshToken, owner: UserId)

  datatype Db = Db(users: map<UserId, UserRow>, blocked: set<BlockRow>)

  function Stored(db: Db, u: UserId): Option<RefreshToken> {
    if u in db.users then db.users[u].refresh else None
  }

  function SetRow(db: Db, u: UserId, row: UserRow): Db {
    db.(users := db.users[u := row])
  }

  // UPDATE ... WHERE id = u: no row, no effect.
  function SetRefresh(db: Db, u: UserId, t: Option<RefreshToken>): Db {
    if u in db.users then SetRow(db, u, db.users[u].(refresh := t)) else db
  }

  predicate CanSwap(db: Db, u: UserId, prev: RefreshToken) {
    u in db.users && db.users[u].refresh == Some(prev)
  }

  function SwapRefresh(db: Db, u: UserId, prev: RefreshToken, next: RefreshToken): Db {
    if CanSwap(db, u, prev) then SetRefresh(db, u, Some(next)) else db
  }

  // Password writes set the password, clear the refresh token and stamp password_changed_at.
  function SetPassword(db: Db, u: UserId, at: Time): Db {
    if u in db.users
    then SetRow(db, u, db.users[u].(hasPassword := true, refresh := None, passwordChangedAt := Some(at)))
    else db
  }

  predicate CanReset(db: Db, u: UserId, expected: Option<Time>) {
    u in db.users && db.users[u].passwordChangedAt == expected
  }

  function SetPasswordIfUnchanged(db: Db, u: UserId, expected: Option<Time>, at: Time): Db {
    if CanReset(db, u, expected) then SetPassword(db, u, at) else db
  }

  function SetActive(db: Db, u: UserId, active: bool, clear: bool): Db {
    if u in db.users
    then SetRow(db, u, db.users[u].(active := active, refresh := if clear then None else db.users[u].refresh))
    else db
  }

  predicate HasBlockRow(db: Db, t: RefreshToken) {
    exists b :: b in db.blocked && b.token == t
  }

  // The token column has a unique index: a second insert fails, whoever asks.
  function Block(db: Db, owner: UserId, t: RefreshToken): Db {
    if HasBlockRow(db, t) then db else db.(blocked := db.blocked + {BlockRow(t, owner)})
  }

  predicate IsBlocked(db: Db, t: RefreshToken, at: Time) {
    exists b :: b in db.blocked && b.token == t && b.token.exp > at
  }

  function CleanupBlocked(db: Db, at: Time): Db {
    db.(blocked := set b | b in db.blocked && !(b.token.exp < at))
  }

  // Cleanup removes exactly the expired rows, and is invisible to every block
  // query that reads the clock later.
  lemma CleanupInvisible(db: Db, cleanedAt: Time, t: RefreshToken, at: Time)
    requires cleanedAt <= at
    ensures IsBlocked(CleanupBlocked(db, cleanedAt), t, at) == IsBlocked(db, t, at)
    ensures forall b :: b in CleanupBlocked(db, cleanedAt).blocked <==> b in db.blocked && cleanedAt <= b.token.exp
    ensures CleanupBlocked(db, cleanedAt).users == db.users
  {
    if IsBlocked(db, t, at) {
      var b :| b in db.blocked && b.token == t && b.token.exp > at;
      assert b in CleanupBlocked(db, cleanedAt).blocked;
    }
  }

  // Removes the row and the block rows the user owns.
  function RemoveUser(db: Db, u: UserId): Db {
    Db(db.users - {u}, set b | b in db.blocked && b.owner != u)
  }

  // The repository object. Every method is one statement on the tables.
  class UserRepository {
    var users: map<UserId, UserRow>
    var blocked: set<BlockRow>

    ghost function Contents(): Db reads this { Db(users, blocked) }

    constructor ()
      ensures Contents() == Db(map[], {})
    {
      users, blocked := map[], {};
    }

    method UpdateRefreshToken(u: UserId, t: RefreshToken)
      modifies this
      ensures Contents() == SetRefresh(old(Contents()), u, Some(t))
    {
      if u in users { users := users[u := users[u].(refresh := Some(t))]; }
    }

    // Compare-and-swap on the stored hash.
    method UpdateRefreshTokenAtomic(u: UserId, prev: RefreshToken, next: RefreshToken) returns (ok: bool)
      modifies this
      ensures ok == CanSwap(old(Contents()), u, prev)
      ensures Contents() == SwapRefresh(old(Contents()), u, prev, next)
    {
      ok := u in users && users[u].refresh == Some(prev);
      if ok { users := users[u := users[u].(refresh := Some(next))]; }
    }

    // The unique index on e-mail and provider is not relied on.
    method GetUserByEmailAndProvider(email: string, provider: Provider) returns (u: Option<UserId>)
      ensures u.Some? ==> u.value in users && users[u.value].email == email && users[u.value].provider == provider
      ensures u.None? ==> forall v :: v in users ==> !(users[v].email == email && users[v].provider == provider)
    {
      if v :| v in users && users[v].email == email && users[v].provider == provider { return Some(v); }
      return None;
    }

    method MatchRefreshToken(u: UserId, t: RefreshToken) returns (r: Result<bool, string>)
      ensures r.Err? <==> u !in users
      ensures r.Ok? ==> r.value == CanSwap(Contents(), u, t)
    {
      if u !in users { return Err("no rows"); }
      r := Ok(users[u].refresh == Some(t));
    }

    method BlockRefreshToken(owner: UserId, t: RefreshToken) returns (inserted: bool)
      modifies this
      ensures inserted == !HasBlockRow(old(Contents()), t)
      ensures Contents() == Block(old(Contents()), owner, t)
    {
      inserted := !exists row :: row in blocked && row.token == t;
      if inserted { blocked := blocked + {BlockRow(t, owner)}; }
    }

    method IsRefreshTokenBlocked(t: RefreshToken, at: Time) returns (b: bool)
      ensures b == IsBlocked(Contents(), t, at)
    {
      b := exists row :: row in blocked && row.token == t && row.token.exp > at;
    }

    method UpdatePassword(u: UserId, at: Time) returns (found: bool)
      modifies this
      ensures found == (u in old(users))
      ensures Contents() == SetPassword(old(Contents()), u, at)
    {
      found := u in users;
      if found { users := users[u := users[u].(hasPassword := true, refresh := None, passwordChangedAt := Some(at))]; }
    }

    method UpdatePasswordIfUnchanged(u: UserId, expected: Option<Time>, at: Time) returns (found: bool)
      modifies this
      ensures found == CanReset(old(Contents()), u, expected)
      ensures Contents() == SetPasswordIfUnchanged(old(Contents()), u, expected, at)
    {
      found := u in users && users[u].passwordChangedAt == expected;
      if found { users := users[u := users[u].(hasPassword := true, refresh := None, passwordChangedAt := Some(at))]; }
    }
  }
}
