// POST /auth/refresh from request to response, in terms of the rows it reads.
module RefreshHandler {
  import opened Clock
  import opened Options
  import opened UserStore
  import opened SessionMachine
  import opened SessionWitnesses

  function Refresh(r: ReqId, t: RefreshToken, id: nat): seq<Event> { Validate(r, t) + Rest(r, id) }

  lemma DoneIgnores(s: State, r: ReqId, id: nat)
    requires r in s.reqs && s.reqs[r] == Done
    ensures Run(s, Rest(r, id)) == s
  {
    RunFour(s, Step(r), Mint(r, id), Step(r), Step(r));
    assert Next(s, Step(r)) == s;
    assert Next(s, Mint(r, id)) == s;
  }

  lemma RefusedAfterValidation(s: State, r: ReqId, t: RefreshToken, id: nat)
    requires r in s.reqs && s.reqs[r] == Validated(t) && !MayRefresh(s, t.user)
    ensures Run(s, Rest(r, id)) == Goto(s, r, Done)
  {
    var s1 := Goto(s, r, Done);
    RunFour(s, Step(r), Mint(r, id), Step(r), Step(r));
    assert Next(s, Step(r)) == s1;
    assert Next(s1, Mint(r, id)) == s1;
    assert Next(s1, Step(r)) == s1;
  }

  // With no block row of its own the token gets one, and the new token is stored.
  lemma RotatedTables(db: Db, t: RefreshToken, n: RefreshToken)
    requires t.user in db.users && db.users[t.user].refresh == Some(t) && forall b :: b in db.blocked ==> b.token != t
    ensures SwapRefresh(Block(db, t.user, t), t.user, t, n) ==
            Db(db.users[t.user := db.users[t.user].(refresh := Some(n))], db.blocked + {BlockRow(t, t.user)})
  {
  }

  lemma SevenDays(s: State, id: nat, u: UserId)
    ensures FreshToken(s, id, u) == RefreshToken(id, u, (s.now + 604_800_000_000_000) / 1_000_000_000 * 1_000_000_000)
  {
  }

  lemma ValidateTables(s: State, r: ReqId, t: RefreshToken)
    requires r !in s.reqs
    ensures var s1 := Run(s, Validate(r, t));
            s1.db == s.db && s1.now == s.now && s1.minted == s.minted && s1.requireVerified == s.requireVerified &&
            s1.log.exchanged == s.log.exchanged && s1.reqs == s.reqs[r := if Accepts(s, t) then Validated(t) else Done]
  {
    ValidateAlone(s, r, t);
  }

  lemma AcceptsWrittenOut(s: State, t: RefreshToken)
    ensures Accepts(s, t) <==>
            (forall b :: b in s.db.blocked ==> b.token != t) && t in s.minted && s.now < t.exp &&
            t.user in s.db.users && s.db.users[t.user].refresh == Some(t)
  {
    if t.exp > s.now {
      if b :| b in s.db.blocked && b.token == t { assert IsBlocked(s.db, t, s.now); }
    }
  }

  // Which tokens an undisturbed validation accepts, in the fields of the rows.
  lemma {:induction false} ValidationAlone(s: State, r: ReqId, t: RefreshToken)
    requires r !in s.reqs
    ensures var s' := Run(s, Validate(r, t));
            (((r, t) in s.log.accepted ||
              ((forall b :: b in s.db.blocked ==> b.token != t) && t in s.minted && s.now < t.exp &&
               t.user in s.db.users && s.db.users[t.user].refresh == Some(t))) <==>
             (r, t) in s'.log.accepted) &&
            s'.db == s.db
  {
    ValidateAlone(s, r, t);
    AcceptsWrittenOut(s, t);
  }

  // s1 is s up to the log and the request.
  lemma RestPasses(s: State, s1: State, r: ReqId, t: RefreshToken, id: nat)
    requires r in s1.reqs && s1.reqs[r] == Validated(t)
    requires s1.db == s.db && s1.now == s.now && s1.minted == s.minted && s1.requireVerified == s.requireVerified
    requires (forall m :: m in s.minted ==> m.id != id) && Accepts(s, t) && MayRefresh(s, t.user)
    ensures var s', n := Run(s1, Rest(r, id)), FreshToken(s1, id, t.user);
            s'.log.exchanged == s1.log.exchanged + multiset{t} && s'.minted == s1.minted + {n} &&
            s'.db == SwapRefresh(Block(s1.db, t.user, t), t.user, t, n)
  {
    RotateAlone(s1, r, t, id);
  }

  lemma RefreshPasses(s: State, r: ReqId, t: RefreshToken, id: nat)
    requires r !in s.reqs && (forall m :: m in s.minted ==> m.id != id) && Accepts(s, t) && MayRefresh(s, t.user)
    ensures var s', s1 := Run(s, Refresh(r, t, id)), Run(s, Validate(r, t));
            var n := FreshToken(s1, id, t.user);
            s1.db == s.db && s1.now == s.now && s'.log.exchanged == s.log.exchanged + multiset{t} && s'.minted == s.minted + {n} &&
            s'.db == SwapRefresh(Block(s1.db, t.user, t), t.user, t, n)
  {
    RunConcat(s, Validate(r, t), Rest(r, id));
    ValidateTables(s, r, t);
    RestPasses(s, Run(s, Validate(r, t)), r, t, id);
  }

  lemma RefreshFails(s: State, r: ReqId, t: RefreshToken, id: nat)
    requires r !in s.reqs && !(Accepts(s, t) && MayRefresh(s, t.user))
    ensures var s' := Run(s, Refresh(r, t, id));
            s'.log.exchanged == s.log.exchanged && s'.minted == s.minted && s'.db == s.db
  {
    var s1 := Run(s, Validate(r, t));
    RunConcat(s, Validate(r, t), Rest(r, id));
    ValidateTables(s, r, t);
    if Accepts(s, t) { RefusedAfterValidation(s1, r, t, id); } else { DoneIgnores(s1, r, id); }
  }

  // An undisturbed refresh exchanges the token for one of seven days exactly when
  // nobody has blocked it, the server signed it, it is alive, the row of its user
  // holds it, and that row is active and, where required, verified. Otherwise the
  // tables stay as they were.
  lemma {:induction false} RefreshAlone(s: State, r: ReqId, t: RefreshToken, id: nat)
    requires r !in s.reqs && forall m :: m in s.minted ==> m.id != id
    ensures var s' := Run(s, Refresh(r, t, id));
            var n := RefreshToken(id, t.user, (s.now + 604_800_000_000_000) / 1_000_000_000 * 1_000_000_000);
            if (forall b :: b in s.db.blocked ==> b.token != t) && t in s.minted && s.now < t.exp &&
               t.user in s.db.users && s.db.users[t.user].refresh == Some(t) &&
               s.db.users[t.user].active && (s.requireVerified ==> s.db.users[t.user].verified)
            then
              s'.log.exchanged == s.log.exchanged + multiset{t} && s'.minted == s.minted + {n} &&
              s'.db.users == s.db.users[t.user := s.db.users[t.user].(refresh := Some(n))] &&
              s'.db.blocked == s.db.blocked + {BlockRow(t, t.user)}
            else s'.log.exchanged == s.log.exchanged && s'.minted == s.minted && s'.db == s.db
  {
    AcceptsWrittenOut(s, t);
    if Accepts(s, t) && MayRefresh(s, t.user) {
      var s1 := Run(s, Validate(r, t));
      RefreshPasses(s, r, t, id);
      SevenDays(s1, id, t.user);
      RotatedTables(s1.db, t, FreshToken(s1, id, t.user));
    } else {
      RefreshFails(s, r, t, id);
    }
  }

  // The last two steps of a rotation whose block insert fails: the exchange happens
  // all the same, and the old token is not blocked.
  lemma {:induction false} UnblockedRotation(s: State, r: ReqId, t: RefreshToken, n: RefreshToken)
    requires r in s.reqs && s.reqs[r] == RefreshMinted(t, n) && t.user in s.db.users && s.db.users[t.user].refresh == Some(t)
    ensures var s' := Next(Next(s, SkipBlock(r)), Step(r));
            s'.db.users == s.db.users[t.user := s.db.users[t.user].(refresh := Some(n))] &&
            s'.db.blocked == s.db.blocked && s'.log.exchanged == s.log.exchanged + multiset{t}
  {
    assert Next(s, SkipBlock(r)).reqs[r] == OldBlocked(t, n);
  }

  // A rotation cut off between block and swap locks its user out: the row still
  // holds the old token, no token of that user is accepted, and the request ends.
  lemma {:induction false} AbortedRotationLocksOut(s: State, r: ReqId, t: RefreshToken, n: RefreshToken, x: RefreshToken)
    requires r in s.reqs && s.reqs[r] == RefreshMinted(t, n) && s.now < t.exp
    requires t.user in s.db.users && s.db.users[t.user].refresh == Some(t) && x.user == t.user
    ensures var s' := Next(Next(s, Step(r)), Abort(r));
            s'.db.users == s.db.users && !Accepts(s', x) && Next(s', Step(r)) == s'
  {
    var s1 := Next(s, Step(r));
    assert s1.reqs[r] == OldBlocked(t, n) && s1.db == Block(s.db, t.user, t);
    OldTokenBlocked(s.db, t, s.now);
    assert Next(s1, Abort(r)).reqs[r] == Done;
  }

  lemma OldTokenBlocked(db: Db, t: RefreshToken, at: Time)
    requires at < t.exp
    ensures IsBlocked(Block(db, t.user, t), t, at) && Block(db, t.user, t).users == db.users
  {
    if HasBlockRow(db, t) {
      var b :| b in db.blocked && b.token == t;
      assert b in Block(db, t.user, t).blocked;
    } else {
      assert BlockRow(t, t.user) in Block(db, t.user, t).blocked;
    }
  }
}
