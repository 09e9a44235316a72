// The auth service methods as they run when nothing interleaves, over the same
// statements the session machine uses, and what the methods do to each other's
// tokens. signed is the set of refresh tokens carrying the server's signature;
// each clock parameter is one time.Now().
module AuthServices {
  import opened Clock
  import opened Options
  import opened UserStore
  import opened Revocation
  import M = SessionMachine
  import R = ResetTokens
  import W = SessionWitnesses

  datatype AuthError =
    | InvalidRefreshToken | AlreadyBlocked | BadToken(why: TokenError) | RefreshTokenRevoked | UserNotFound | RefreshTokenMismatch
    | InvalidCredentials | Deactivated | EmailNotVerified | NotAPasswordAccount | RecordNotFound

  // A presented refresh token as the JWT that ValidateToken sees.
  function AsJwt(t: RefreshToken, signed: set<RefreshToken>, purpose: string): Jwt {
    Jwt(t.id, t in signed, purpose, t.exp)
  }

  // The instants at which ValidateRefreshToken reads the clock, in order: for the
  // block query, to parse, and for the two tiers of revoked access tokens.
  datatype Clocks = Clocks(block: Time, parse: Time, memory: Time, durable: Time)

  // ValidateRefreshToken: the block check comes first, then ValidateToken, then
  // the comparison with the stored token.
  function RefreshVerdict(db: Db, c: Tiers, signed: set<RefreshToken>, t: RefreshToken, purpose: string, at: Clocks): Result<UserId, AuthError> {
    if IsBlocked(db, t, at.block) then Err(RefreshTokenRevoked)
    else
      var claims := Verdict(c.memory, c.durable, AsJwt(t, signed, purpose), at.parse, at.memory, at.durable);
      if claims.Err? then Err(BadToken(claims.error))
      else if t.user !in db.users then Err(UserNotFound)
      else if !CanSwap(db, t.user, t) then Err(RefreshTokenMismatch)
      else Ok(t.user)
  }

  // RotateRefreshToken blocks the old token if it still parses, then swaps; the
  // block stays even when the swap fails.
  function RotatedDb(db: Db, u: UserId, signed: set<RefreshToken>, prev: RefreshToken, next: RefreshToken, at: Time): Db {
    SwapRefresh(if prev in signed && at < prev.exp then Block(db, u, prev) else db, u, prev, next)
  }

  function LogoutDb(db: Db, u: UserId, signed: set<RefreshToken>, t: RefreshToken, at: Time): Db {
    if t in signed && at < t.exp then Block(db, u, t) else db
  }

  // The refresh token can be blocked: it parses and nobody has blocked it yet.
  predicate CanBlock(db: Db, signed: set<RefreshToken>, t: RefreshToken, at: Time) {
    t in signed && at < t.exp && !HasBlockRow(db, t)
  }

  // Logout revokes the access token only after blocking the refresh token.
  function LogoutTiers(db: Db, c: Tiers, signed: set<RefreshToken>, t: RefreshToken, access: Jwt, at: Time): Tiers {
    if CanBlock(db, signed, t, at) then RevokeIn(c, access, at) else c
  }

  function NewRefreshToken(id: nat, u: UserId, at: Time): RefreshToken {
    RefreshToken(id, u, NumericDate(at + M.REFRESH_LIFETIME))
  }

  // ---- the methods are the machine's requests, undisturbed ----

  // With one clock reading the verdict is the one the session machine reaches,
  // for a token without a purpose that was not revoked as an access token.
  lemma {:induction false} VerdictIsTheMachines(s: M.State, r: M.ReqId, t: RefreshToken, c: Tiers, purpose: string)
    requires r !in s.reqs
    ensures RefreshVerdict(s.db, c, s.minted, t, purpose, Clocks(s.now, s.now, s.now, s.now)).Ok? <==>
            purpose == "" && !RevokedIn(c.memory, c.durable, AsJwt(t, s.minted, purpose), s.now, s.now) &&
            M.Run(s, W.Validate(r, t)) == M.NoteAccepted(M.Goto(s, r, M.Validated(t)), r, t)
  {
    W.ValidateAlone(s, r, t);
    assert M.Goto(s, r, M.Done).reqs[r] != M.Validated(t);
  }

  lemma {:induction false} RotateIsTheMachines(s: M.State, r: M.ReqId, t: RefreshToken, n: RefreshToken)
    requires r in s.reqs && s.reqs[r] == M.RefreshMinted(t, n) && t in s.minted
    ensures var s' := M.Run(s, W.Steps(r, 2));
            s'.db == RotatedDb(s.db, t.user, s.minted, t, n, s.now) &&
            s'.log.exchanged == s.log.exchanged + (if CanSwap(s.db, t.user, t) then multiset{t} else multiset{})
  {
    W.RunSteps(s, r, 2);
    var s1 := M.Next(s, M.Step(r));
    W.LastStep(s1, r);
    assert s1.reqs[r] == M.OldBlocked(t, n);
    assert CanSwap(s1.db, t.user, t) == CanSwap(s.db, t.user, t);
  }

  lemma IssueStores(s: M.State, r: M.ReqId, u: UserId, n: RefreshToken)
    requires r in s.reqs && s.reqs[r] == M.IssueMinted(u, n)
    ensures M.Run(s, W.Steps(r, 1)).db == SetRefresh(s.db, u, Some(n))
  {
    W.LastStep(s, r);
  }

  lemma {:induction false} LoginIsTheMachines(s: M.State, r: M.ReqId, u: UserId, id: nat)
    requires r !in s.reqs && forall m :: m in s.minted ==> m.id != id
    ensures M.Run(s, [M.BeginIssue(r, u), M.Mint(r, id)] + W.Steps(r, 1)).db ==
            SetRefresh(s.db, u, Some(NewRefreshToken(id, u, s.now)))
  {
    var n := M.FreshToken(s, id, u);
    M.RunConcat(s, [M.BeginIssue(r, u), M.Mint(r, id)], W.Steps(r, 1));
    W.IssueAlone(s, r, u, id);
    IssueStores(M.Goto(s, r, M.IssueMinted(u, n)).(minted := s.minted + {n}), r, u, n);
  }

  lemma {:induction false} LogoutIsTheMachines(s: M.State, r: M.ReqId, u: UserId, t: RefreshToken)
    requires r !in s.reqs
    ensures M.Run(s, [M.BeginLogout(r, u, t), M.Step(r)]).db == LogoutDb(s.db, u, s.minted, t, s.now)
  {
    if t in s.minted && s.now < t.exp {
      W.LogoutAlone(s, r, u, t);
    } else {
      assert [M.BeginLogout(r, u, t), M.Step(r)] == [M.BeginLogout(r, u, t)] + [M.Step(r)];
      W.RunCons(s, M.BeginLogout(r, u, t), [M.Step(r)]);
      W.RunOne(s, M.Step(r));
    }
  }

  lemma {:induction false} ChangePasswordIsTheMachines(s: M.State, r: M.ReqId, u: UserId)
    requires r !in s.reqs
    ensures M.Run(s, [M.BeginPassword(r, u)] + W.Steps(r, 2)).db == SetPassword(s.db, u, s.now)
  {
    W.PasswordAlone(s, r, u);
  }

  lemma {:induction false} ResetPasswordIsTheMachines(s: M.State, r: M.ReqId, k: M.ResetToken)
    requires r in s.reqs && s.reqs[r] == M.ResetChecked(k) && k.user in s.db.users
    ensures M.Run(s, W.Steps(r, 3)).db == SetPassword(s.db, k.user, s.now)
  {
    R.CommitAlone(s, r, k);
  }

  // ---- what the methods do to each other's tokens ----

  // After a rotation the old token is refused, and the new one is accepted
  // exactly when it is good by itself and the swap succeeded, or, if it failed,
  // when the new one was the stored token already.
  lemma {:induction false} RotationHandsOver(db: Db, c: Tiers, u: UserId, signed: set<RefreshToken>, prev: RefreshToken, next: RefreshToken, now: Time, at: Clocks)
    requires prev.user == u && next.user == u && prev != next && now <= at.block <= at.parse
    ensures var db' := RotatedDb(db, u, signed, prev, next, now);
            RefreshVerdict(db', c, signed, prev, "", at).Err? &&
            (RefreshVerdict(db', c, signed, next, "", at).Ok? <==>
               (CanSwap(db, u, prev) || CanSwap(db, u, next)) && !IsBlocked(db, next, at.block) &&
               Verdict(c.memory, c.durable, AsJwt(next, signed, ""), at.parse, at.memory, at.durable).Ok?)
  {
    var db' := RotatedDb(db, u, signed, prev, next, now);
    assert IsBlocked(db', next, at.block) <==> IsBlocked(db, next, at.block) by {
      assert forall b: BlockRow :: b.token == next ==> (b in db'.blocked <==> b in db.blocked);
    }
    if prev in signed && now < prev.exp { BlockedIsRefused(db, u, prev, at.block); }
  }

  lemma BlockedIsRefused(db: Db, u: UserId, t: RefreshToken, at: Time)
    ensures HasBlockRow(Block(db, u, t), t)
    ensures at < t.exp ==> IsBlocked(Block(db, u, t), t, at)
  {
    if HasBlockRow(db, t) {
      var b :| b in db.blocked && b.token == t;
      assert b in Block(db, u, t).blocked;
    } else {
      assert BlockRow(t, u) in Block(db, u, t).blocked;
    }
  }

  // After a logout the token is refused, whatever the clock readings, because the
  // block query comes before the expiry check.
  lemma {:induction false} LogoutRefuses(db: Db, c: Tiers, u: UserId, signed: set<RefreshToken>, t: RefreshToken, purpose: string, now: Time, at: Clocks)
    requires at.block <= at.parse && now <= at.parse
    ensures RefreshVerdict(LogoutDb(db, u, signed, t, now), c, signed, t, purpose, at).Err?
  {
    BlockedIsRefused(db, u, t, at.block);
  }

  // A logout makes a good access token refused exactly when nobody had blocked the
  // refresh token before; otherwise it keeps every verdict as it was.
  lemma LogoutRevokesIff(db: Db, c: Tiers, signed: set<RefreshToken>, t: RefreshToken, access: Jwt, at: Time)
    requires Verdict(c.memory, c.durable, access, at, at, at).Ok?
    ensures var c' := LogoutTiers(db, c, signed, t, access, at);
            (Verdict(c'.memory, c'.durable, access, at, at, at) == Err(Revoked) <==> CanBlock(db, signed, t, at)) &&
            (!CanBlock(db, signed, t, at) ==> Verdict(c'.memory, c'.durable, access, at, at, at).Ok?)
  {
  }

  // The input at which it does not: a logout after a logout, or with a token that a
  // rotation has blocked, by whatever user, fails and leaves the access token valid.
  lemma {:induction false} SecondLogoutFails(db: Db, c: Tiers, u: UserId, signed: set<RefreshToken>, t: RefreshToken, next: RefreshToken,
      access: Jwt, now: Time, v: UserId, at: Time)
    requires t in signed && now < t.exp
    ensures var logged, rotated := LogoutDb(db, u, signed, t, now), RotatedDb(db, u, signed, t, next, now);
            LogoutDb(logged, v, signed, t, at) == logged && LogoutTiers(logged, c, signed, t, access, at) == c &&
            LogoutDb(rotated, v, signed, t, at) == rotated && LogoutTiers(rotated, c, signed, t, access, at) == c
  {
    BlockedIsRefused(db, u, t, at);
    assert RotatedDb(db, u, signed, t, next, now).blocked == Block(db, u, t).blocked;
    assert HasBlockRow(RotatedDb(db, u, signed, t, next, now), t);
  }

  // After a password change or reset every refresh token of the user is refused,
  // and a rotation that was under way mismatches and leaves the users as they are.
  lemma PasswordChangeStopsRefresh(db: Db, c: Tiers, u: UserId, changedAt: Time, signed: set<RefreshToken>,
      t: RefreshToken, purpose: string, next: RefreshToken, now: Time, at: Clocks)
    requires t.user == u
    ensures var db' := SetPassword(db, u, changedAt);
            RefreshVerdict(db', c, signed, t, purpose, at).Err? &&
            !CanSwap(db', u, t) && RotatedDb(db', u, signed, t, next, now).users == db'.users
  {
  }

  // Revokes the non-empty tokens one after the other.
  function RevokeEach(c: Tiers, tokens: seq<Option<Jwt>>, at: Time): Tiers {
    if tokens == [] then c
    else
      var c' := RevokeEach(c, tokens[..|tokens| - 1], at);
      match tokens[|tokens| - 1]
      case Some(t) => RevokeIn(c', t, at)
      case None => c'
  }

  // Every live token handed over is refused afterwards, and no other verdict changes.
  lemma {:induction false} RevokeEachRefuses(c: Tiers, tokens: seq<Option<Jwt>>, at: Time, t: Jwt)
    requires forall x :: x in c.memory ==> c.memory[x] == x.exp
    requires forall x :: x in c.durable ==> c.durable[x] == x.exp
    ensures var c' := RevokeEach(c, tokens, at);
            (forall x :: x in c'.memory ==> c'.memory[x] == x.exp) && (forall x :: x in c'.durable ==> c'.durable[x] == x.exp) &&
            Verdict(c'.memory, c'.durable, t, at, at, at) ==
              (if Parses(t, at) && t.purpose == "" && Some(t) in tokens then Err(Revoked)
               else Verdict(c.memory, c.durable, t, at, at, at))
  {
    if tokens != [] {
      RevokeEachRefuses(c, tokens[..|tokens| - 1], at, t);
      assert tokens == tokens[..|tokens| - 1] + [tokens[|tokens| - 1]];
    }
  }

  // The user Login looks up: the local account with the address, else the passkey one.
  predicate LoginCandidate(db: Db, email: string, u: UserId) {
    u in db.users && db.users[u].email == email &&
    (db.users[u].provider == Local ||
     (db.users[u].provider == Passkey && forall v :: v in db.users ==> !(db.users[v].email == email && db.users[v].provider == Local)))
  }

  class AuthService {
    const userRepo: UserRepository
    const revoked: RevokedTokens
    const requireVerified: bool

    constructor (userRepo: UserRepository, revoked: RevokedTokens, requireVerified: bool)
      ensures this.userRepo == userRepo && this.revoked == revoked && this.requireVerified == requireVerified
    {
      this.userRepo, this.revoked, this.requireVerified := userRepo, revoked, requireVerified;
    }

    method ValidateRefreshToken(signed: set<RefreshToken>, t: RefreshToken, purpose: string, at: Clocks)
      returns (r: Result<UserId, AuthError>)
      ensures r == RefreshVerdict(userRepo.Contents(), revoked.Contents(), signed, t, purpose, at)
    {
      var blocked := userRepo.IsRefreshTokenBlocked(t, at.block);
      if blocked { return Err(RefreshTokenRevoked); }
      var claims := revoked.ValidateToken(AsJwt(t, signed, purpose), at.parse, at.memory, at.durable);
      if claims.Err? { return Err(BadToken(claims.error)); }
      if t.user !in userRepo.users { return Err(UserNotFound); }
      var matched := userRepo.MatchRefreshToken(t.user, t);
      if matched == Ok(false) { return Err(RefreshTokenMismatch); }
      return Ok(t.user);
    }

    method RotateRefreshToken(u: UserId, signed: set<RefreshToken>, prev: RefreshToken, next: RefreshToken, at: Time)
      returns (r: Result<(), AuthError>)
      modifies userRepo
      ensures userRepo.Contents() == RotatedDb(old(userRepo.Contents()), u, signed, prev, next, at)
      ensures r == if CanSwap(old(userRepo.Contents()), u, prev) then Ok(()) else Err(RefreshTokenMismatch)
    {
      if prev in signed && at < prev.exp { var _ := userRepo.BlockRefreshToken(u, prev); }
      var ok := userRepo.UpdateRefreshTokenAtomic(u, prev, next);
      if !ok { return Err(RefreshTokenMismatch); }
      return Ok(());
    }

    // matching is the set of users whose stored hash the given password matches.
    method Login(email: string, matching: set<UserId>, id: nat, at: Time) returns (r: Result<RefreshToken, AuthError>)
      modifies userRepo
      ensures r.Ok? ==>
                var u := r.value.user;
                r.value == NewRefreshToken(id, u, at) && u in old(userRepo.users) && u in matching &&
                old(userRepo.users)[u].email == email && old(userRepo.users)[u].active &&
                (old(userRepo.users)[u].provider == Local ||
                 (old(userRepo.users)[u].provider == Passkey &&
                  forall v :: v in old(userRepo.users) ==> !(old(userRepo.users)[v].email == email && old(userRepo.users)[v].provider == Local))) &&
                (requireVerified ==> old(userRepo.users)[u].verified) &&
                userRepo.users == old(userRepo.users)[u := old(userRepo.users)[u].(refresh := Some(r.value))]
      ensures userRepo.blocked == old(userRepo.blocked) && (r.Err? ==> userRepo.users == old(userRepo.users))
      ensures r == Err(InvalidCredentials) ==>
                (forall u :: !LoginCandidate(old(userRepo.Contents()), email, u)) ||
                exists u :: LoginCandidate(old(userRepo.Contents()), email, u) && u !in matching
      ensures r == Err(Deactivated) ==>
                exists u :: LoginCandidate(old(userRepo.Contents()), email, u) && u in matching && !old(userRepo.users)[u].active
      ensures r == Err(EmailNotVerified) ==>
                requireVerified && exists u :: LoginCandidate(old(userRepo.Contents()), email, u) && u in matching && !old(userRepo.users)[u].verified
      ensures r.Err? ==> r.error == InvalidCredentials || r.error == Deactivated || r.error == EmailNotVerified
    {
      var found := userRepo.GetUserByEmailAndProvider(email, Local);
      if found.None? { found := userRepo.GetUserByEmailAndProvider(email, Passkey); }
      if found.None? { return Err(InvalidCredentials); }
      var u := found.value;
      assert LoginCandidate(userRepo.Contents(), email, u);
      if u !in matching { return Err(InvalidCredentials); }
      if !userRepo.users[u].active { return Err(Deactivated); }
      if requireVerified && !userRepo.users[u].verified { return Err(EmailNotVerified); }
      var next := NewRefreshToken(id, u, at);
      userRepo.UpdateRefreshToken(u, next);
      return Ok(next);
    }

    method BlockRefreshToken(u: UserId, signed: set<RefreshToken>, t: RefreshToken, at: Time) returns (r: Result<(), AuthError>)
      modifies userRepo
      ensures r.Ok? <==> CanBlock(old(userRepo.Contents()), signed, t, at)
      ensures userRepo.Contents() == LogoutDb(old(userRepo.Contents()), u, signed, t, at)
    {
      if t !in signed || t.exp <= at { return Err(InvalidRefreshToken); }
      var inserted := userRepo.BlockRefreshToken(u, t);
      if !inserted { return Err(AlreadyBlocked); }
      return Ok(());
    }

    method Logout(u: UserId, signed: set<RefreshToken>, t: RefreshToken, access: Jwt, at: Time) returns (r: Result<(), AuthError>)
      modifies userRepo, revoked
      ensures r.Ok? <==> CanBlock(old(userRepo.Contents()), signed, t, at)
      ensures userRepo.Contents() == LogoutDb(old(userRepo.Contents()), u, signed, t, at)
      ensures revoked.Contents() == LogoutTiers(old(userRepo.Contents()), old(revoked.Contents()), signed, t, access, at)
    {
      r := BlockRefreshToken(u, signed, t, at);
      if r.Err? { return; }
      revoked.RevokeAccessToken(access, at);
    }

    // An account without a password may set its first one without giving one.
    method ChangePassword(u: UserId, currentMatches: bool, access: Jwt, at: Time) returns (r: Result<(), AuthError>)
      modifies userRepo, revoked
      ensures r.Ok? <==> u in old(userRepo.users) &&
                         (old(userRepo.users)[u].provider == Local || old(userRepo.users)[u].provider == Passkey) &&
                         (old(userRepo.users)[u].hasPassword ==> currentMatches)
      ensures r.Ok? ==> userRepo.users == old(userRepo.users)[u := old(userRepo.users)[u].(hasPassword := true, refresh := None, passwordChangedAt := Some(at))]
      ensures userRepo.Contents() == if r.Ok? then SetPassword(old(userRepo.Contents()), u, at) else old(userRepo.Contents())
      ensures revoked.Contents() == if r.Ok? then RevokeIn(old(revoked.Contents()), access, at) else old(revoked.Contents())
    {
      if u !in userRepo.users { return Err(UserNotFound); }
      if !HasPasswordLogin(userRepo.users[u]) { return Err(NotAPasswordAccount); }
      if userRepo.users[u].hasPassword && !currentMatches { return Err(InvalidCredentials); }
      var found := userRepo.UpdatePassword(u, at);
      revoked.RevokeAccessToken(access, at);
      return Ok(());
    }

    method ResetPassword(u: UserId, accessTokens: seq<Option<Jwt>>, at: Time) returns (r: Result<(), AuthError>)
      modifies userRepo, revoked
      ensures r.Ok? <==> u in old(userRepo.users)
      ensures r.Ok? ==> userRepo.users == old(userRepo.users)[u := old(userRepo.users)[u].(hasPassword := true, refresh := None, passwordChangedAt := Some(at))]
      ensures userRepo.Contents() == SetPassword(old(userRepo.Contents()), u, at)
      ensures revoked.Contents() == if r.Ok? then RevokeEach(old(revoked.Contents()), accessTokens, at) else old(revoked.Contents())
    {
      if u !in userRepo.users { return Err(UserNotFound); }
      var expected := userRepo.users[u].passwordChangedAt;
      var found := userRepo.UpdatePasswordIfUnchanged(u, expected, at);
      if !found { return Err(RecordNotFound); }
      var i := 0;
      while i < |accessTokens|
        invariant 0 <= i <= |accessTokens|
        invariant revoked.Contents() == RevokeEach(old(revoked.Contents()), accessTokens[..i], at)
        invariant userRepo.Contents() == SetPassword(old(userRepo.Contents()), u, at)
      {
        assert accessTokens[..i + 1][..i] == accessTokens[..i];
        if accessTokens[i].Some? { revoked.RevokeAccessToken(accessTokens[i].value, at); }
        i := i + 1;
      }
      assert accessTokens[..i] == accessTokens;
      return Ok(());
    }
  }

  // After a password was set, by a change or by a reset, a later change of the
  // same user succeeds only if it gives the password that is now the current one;
  // the first change of an account without a password needs none.
  method ChangeAfterWrite(service: AuthService, u: UserId, byReset: bool, firstMatches: bool, secondMatches: bool,
      access: Jwt, at: Time, later: Time) returns (first: Result<(), AuthError>, second: Result<(), AuthError>)
    modifies service.userRepo, service.revoked
    ensures first.Ok? <==>
              u in old(service.userRepo.users) &&
              (byReset ||
               ((old(service.userRepo.users)[u].provider == Local || old(service.userRepo.users)[u].provider == Passkey) &&
                (old(service.userRepo.users)[u].hasPassword ==> firstMatches)))
    ensures first.Ok? ==>
              (second.Ok? <==> (old(service.userRepo.users)[u].provider == Local || old(service.userRepo.users)[u].provider == Passkey) && secondMatches)
  {
    if byReset {
      first := service.ResetPassword(u, [Some(access)], at);
    } else {
      first := service.ChangePassword(u, firstMatches, access, at);
    }
    second := service.ChangePassword(u, secondMatches, access, later);
  }
}
