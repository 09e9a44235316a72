// What the session protocol does when nothing interferes, and the runs in which
// what the safety theorems count or except does harm.
module SessionWitnesses {
  import opened Options
  import opened UserStore
  import opened SessionMachine

  lemma RunCons(s: State, e: Event, es: seq<Event>)
    ensures Run(s, [e] + es) == Run(Next(s, e), es)
  {
    RunConcat(s, [e], es);
    assert Run(s, [e]) == Next(s, e) by { assert [e][..0] == []; }
  }

  lemma RunOne(s: State, e: Event)
    ensures Run(s, [e]) == Next(s, e)
  {
    assert [e][..0] == [];
  }

  function Steps(r: ReqId, n: nat): seq<Event> { seq(n, _ => Step(r)) }

  lemma RunSteps(s: State, r: ReqId, n: nat)
    requires n > 0
    ensures Run(s, Steps(r, n)) == Run(Next(s, Step(r)), Steps(r, n - 1))
  {
    assert Steps(r, n) == [Step(r)] + Steps(r, n - 1);
    RunCons(s, Step(r), Steps(r, n - 1));
  }

  lemma {:induction false} DoneStays(s: State, r: ReqId, n: nat)
    requires r in s.reqs && s.reqs[r] == Done
    ensures Run(s, Steps(r, n)) == s
  {
    if n > 0 {
      RunSteps(s, r, n);
      assert Next(s, Step(r)) == s;
      DoneStays(s, r, n - 1);
    }
  }

  lemma StartAlone(s: State, r: ReqId, t: RefreshToken)
    requires r !in s.reqs
    ensures Run(s, [BeginRefresh(r, t)] + Steps(r, 2)) ==
            if IsBlocked(s.db, t, s.now) then Goto(s, r, Done) else Goto(s, r, NotBlocked(t))
  {
    RunCons(s, BeginRefresh(r, t), Steps(r, 2));
    RunSteps(Goto(s, r, RefreshStarted(t)), r, 2);
    ClockStep(s, r, t);
    LastStep(Goto(s, r, BlockQuery(t, s.now)), r);
    BlockStep(s, r, t);
  }

  lemma ClockStep(s: State, r: ReqId, t: RefreshToken)
    ensures Next(Goto(s, r, RefreshStarted(t)), Step(r)) == Goto(s, r, BlockQuery(t, s.now))
  {
    GotoTwice(s, r, RefreshStarted(t), BlockQuery(t, s.now));
  }

  lemma BlockStep(s: State, r: ReqId, t: RefreshToken)
    ensures Next(Goto(s, r, BlockQuery(t, s.now)), Step(r)) ==
            if IsBlocked(s.db, t, s.now) then Goto(s, r, Done) else Goto(s, r, NotBlocked(t))
  {
    GotoTwice(s, r, BlockQuery(t, s.now), Done);
    GotoTwice(s, r, BlockQuery(t, s.now), NotBlocked(t));
  }

  lemma GotoTwice(s: State, r: ReqId, p: Phase, q: Phase)
    ensures Goto(Goto(s, r, p), r, q) == Goto(s, r, q)
  {
    assert s.reqs[r := p][r := q] == s.reqs[r := q];
  }

  lemma LastStep(s: State, r: ReqId)
    ensures Run(s, Steps(r, 1)) == Next(s, Step(r))
  {
    RunSteps(s, r, 1);
    assert Steps(r, 0) == [];
  }

  lemma UserFoundStep(s: State, r: ReqId, t: RefreshToken)
    ensures Next(Goto(s, r, UserFound(t)), Step(r)) ==
            if CanSwap(s.db, t.user, t) then NoteAccepted(Goto(s, r, Validated(t)), r, t) else Goto(s, r, Done)
  {
    GotoTwice(s, r, UserFound(t), Validated(t));
    GotoTwice(s, r, UserFound(t), Done);
  }

  lemma UserAlone(s: State, r: ReqId, t: RefreshToken)
    requires r in s.reqs && s.reqs[r] == Unexpired(t)
    ensures Run(s, Steps(r, 2)) ==
            if CanSwap(s.db, t.user, t) then NoteAccepted(Goto(s, r, Validated(t)), r, t) else Goto(s, r, Done)
  {
    RunSteps(s, r, 2);
    if t.user in s.db.users {
      assert Next(s, Step(r)) == Goto(s, r, UserFound(t));
      LastStep(Goto(s, r, UserFound(t)), r);
      UserFoundStep(s, r, t);
    } else {
      DoneStays(Goto(s, r, Done), r, 1);
    }
  }

  lemma ExpiryStep(s: State, r: ReqId, t: RefreshToken)
    requires r in s.reqs && s.reqs[r] == NotBlocked(t)
    ensures Next(s, Step(r)) == Goto(s, r, if t in s.minted && s.now < t.exp then Unexpired(t) else Done)
  {
  }

  lemma MatchAlone(s: State, r: ReqId, t: RefreshToken)
    requires r in s.reqs && s.reqs[r] == NotBlocked(t)
    ensures Run(s, Steps(r, 3)) ==
            if t in s.minted && s.now < t.exp && CanSwap(s.db, t.user, t)
            then NoteAccepted(Goto(s, r, Validated(t)), r, t) else Goto(s, r, Done)
  {
    RunSteps(s, r, 3);
    ExpiryStep(s, r, t);
    if t in s.minted && s.now < t.exp {
      UserAlone(Goto(s, r, Unexpired(t)), r, t);
      UnexpiredGone(s, r, t);
    } else {
      DoneStays(Goto(s, r, Done), r, 2);
    }
  }

  lemma UnexpiredGone(s: State, r: ReqId, t: RefreshToken)
    ensures var s1 := Goto(s, r, Unexpired(t));
            Goto(s1, r, Done) == Goto(s, r, Done) &&
            NoteAccepted(Goto(s1, r, Validated(t)), r, t) == NoteAccepted(Goto(s, r, Validated(t)), r, t)
  {
    GotoTwice(s, r, Unexpired(t), Validated(t));
    GotoTwice(s, r, Unexpired(t), Done);
  }

  // A validation nothing interferes with accepts exactly the tokens it should.
  lemma {:induction false} ValidateAlone(s: State, r: ReqId, t: RefreshToken)
    requires r !in s.reqs
    ensures Run(s, [BeginRefresh(r, t)] + Steps(r, 2) + Steps(r, 3)) ==
            if Accepts(s, t) then NoteAccepted(Goto(s, r, Validated(t)), r, t) else Goto(s, r, Done)
  {
    RunConcat(s, [BeginRefresh(r, t)] + Steps(r, 2), Steps(r, 3));
    StartAlone(s, r, t);
    if IsBlocked(s.db, t, s.now) {
      DoneStays(Goto(s, r, Done), r, 3);
    } else {
      var s1 := Goto(s, r, NotBlocked(t));
      MatchAlone(s1, r, t);
      assert Goto(s1, r, Done) == Goto(s, r, Done);
      assert Goto(s1, r, Validated(t)) == Goto(s, r, Validated(t));
    }
  }

  // The rest of the refresh handler: mint, block the old token, swap.
  function Rest(r: ReqId, id: nat): seq<Event> { [Step(r), Mint(r, id), Step(r), Step(r)] }

  lemma RunFour(s: State, a: Event, b: Event, c: Event, d: Event)
    ensures Run(s, [a, b, c, d]) == Next(Next(Next(Next(s, a), b), c), d)
  {
    assert [a, b, c, d] == [a] + [b, c, d] && [b, c, d] == [b] + [c, d] && [c, d] == [c] + [d] && [d] == [d] + [];
    RunCons(s, a, [b, c, d]);
    RunCons(Next(s, a), b, [c, d]);
    RunCons(Next(Next(s, a), b), c, [d]);
    RunCons(Next(Next(Next(s, a), b), c), d, []);
  }

  // From validation on, an undisturbed refresh rotates the token: the old one is
  // blocked and counted as exchanged, the new one is stored.
  lemma RotateAlone(s: State, r: ReqId, t: RefreshToken, id: nat)
    requires r in s.reqs && s.reqs[r] == Validated(t)
    requires CanSwap(s.db, t.user, t) && MayRefresh(s, t.user) && s.now < t.exp
    requires forall m :: m in s.minted ==> m.id != id
    requires t in s.minted
    ensures var s' := Run(s, Rest(r, id)); var n := FreshToken(s, id, t.user);
            s'.db == SwapRefresh(Block(s.db, t.user, t), t.user, t, n) &&
            s'.log.exchanged == s.log.exchanged + multiset{t} && s'.reqs == s.reqs[r := Done] &&
            s'.now == s.now && s'.requireVerified == s.requireVerified && s'.minted == s.minted + {n}
  {
    var n := FreshToken(s, id, t.user);
    var s1 := Goto(s, r, Refetched(t));
    var s2 := Goto(s, r, RefreshMinted(t, n)).(minted := s.minted + {n});
    RunFour(s, Step(r), Mint(r, id), Step(r), Step(r));
    FetchAlone(s, r, t);
    MintAlone(s, r, t, id);
    SwapAlone(s2, r, t, n);
  }

  lemma FetchAlone(s: State, r: ReqId, t: RefreshToken)
    requires r in s.reqs && s.reqs[r] == Validated(t) && MayRefresh(s, t.user)
    ensures Next(s, Step(r)) == Goto(s, r, Refetched(t))
  {
  }

  lemma MintAlone(s: State, r: ReqId, t: RefreshToken, id: nat)
    requires r in s.reqs && forall m :: m in s.minted ==> m.id != id
    ensures var n := FreshToken(s, id, t.user);
            Next(Goto(s, r, Refetched(t)), Mint(r, id)) == Goto(s, r, RefreshMinted(t, n)).(minted := s.minted + {n})
  {
    GotoTwice(s, r, Refetched(t), RefreshMinted(t, FreshToken(s, id, t.user)));
  }

  lemma SwapAlone(s: State, r: ReqId, t: RefreshToken, n: RefreshToken)
    requires r in s.reqs && s.reqs[r] == RefreshMinted(t, n) && n != t
    requires CanSwap(s.db, t.user, t) && s.now < t.exp
    ensures var s' := Next(Next(s, Step(r)), Step(r));
            s'.db == SwapRefresh(Block(s.db, t.user, t), t.user, t, n) &&
            s'.log.exchanged == s.log.exchanged + multiset{t} && s'.reqs == s.reqs[r := Done] &&
            s'.now == s.now && s'.requireVerified == s.requireVerified && s'.minted == s.minted
  {
    var s1 := Goto(BlockToken(s, t.user, t), r, OldBlocked(t, n));
    assert Next(s, Step(r)) == s1;
    assert CanSwap(s1.db, t.user, t);
  }

  function Validate(r: ReqId, t: RefreshToken): seq<Event> { [BeginRefresh(r, t)] + Steps(r, 2) + Steps(r, 3) }

  // Two refreshes of t validated, and a profile save that read the row before either rotated.
  function BothValidated(s: State, a: ReqId, b: ReqId, w: ReqId, t: RefreshToken): State {
    var s1 := NoteAccepted(Goto(s, a, Validated(t)), a, t);
    var s2 := NoteAccepted(Goto(s1, b, Validated(t)), b, t);
    if t.user in s.db.users then Goto(s2, w, Saving(t.user, s.db.users[t.user])) else s2
  }

  function Save(s: State, w: ReqId, u: UserId): Event {
    if u in s.db.users then BeginSave(w, u, s.db.users[u]) else Tick(0)
  }

  function Prelude(s: State, a: ReqId, b: ReqId, w: ReqId, t: RefreshToken): seq<Event> {
    Validate(a, t) + Validate(b, t) + [Save(s, w, t.user)]
  }

  lemma BothValidate(s: State, a: ReqId, b: ReqId, t: RefreshToken)
    requires Accepts(s, t) && a !in s.reqs && b !in s.reqs && a != b
    ensures Run(s, Validate(a, t) + Validate(b, t)) ==
            var s1 := NoteAccepted(Goto(s, a, Validated(t)), a, t); NoteAccepted(Goto(s1, b, Validated(t)), b, t)
  {
    RunConcat(s, Validate(a, t), Validate(b, t));
    ValidateAlone(s, a, t);
    ValidateAlone(NoteAccepted(Goto(s, a, Validated(t)), a, t), b, t);
  }

  lemma PreludeRun(s: State, a: ReqId, b: ReqId, w: ReqId, t: RefreshToken)
    requires Accepts(s, t)
    requires a !in s.reqs && b !in s.reqs && w !in s.reqs && a != b && b != w && a != w
    ensures Run(s, Prelude(s, a, b, w, t)) == BothValidated(s, a, b, w, t)
  {
    var s1 := NoteAccepted(Goto(s, a, Validated(t)), a, t);
    RunConcat(s, Validate(a, t) + Validate(b, t), [Save(s, w, t.user)]);
    BothValidate(s, a, b, t);
    SaveBegins(NoteAccepted(Goto(s1, b, Validated(t)), b, t), s, w, t.user);
  }

  lemma RunThree(s: State, a: seq<Event>, b: seq<Event>, c: seq<Event>)
    ensures Run(s, a + b + c) == Run(Run(Run(s, a), b), c)
  {
    RunConcat(s, a + b, c);
    RunConcat(s, a, b);
  }

  lemma SaveBegins(s2: State, s: State, w: ReqId, u: UserId)
    requires s2.db == s.db && u in s.db.users && w !in s2.reqs
    ensures Run(s2, [Save(s, w, u)]) == Goto(s2, w, Saving(u, s.db.users[u]))
  {
    RunOne(s2, Save(s, w, u));
    var row := s.db.users[u];
    assert row.(refresh := row.refresh, passwordChangedAt := row.passwordChangedAt) == row;
  }

  // Why the safety theorems count the saves that put t back: in every live
  // session, one that lands between two concurrent rotations lets both succeed.
  lemma StaleSaveExchangesTwice(s: State, a: ReqId, b: ReqId, w: ReqId, t: RefreshToken, i: nat, j: nat)
    requires Accepts(s, t) && MayRefresh(s, t.user)
    requires a !in s.reqs && b !in s.reqs && w !in s.reqs && a != b && b != w && a != w
    requires i != j && forall m :: m in s.minted ==> m.id != i && m.id != j
    ensures Run(s, Prelude(s, a, b, w, t) + Rest(a, i) + [Step(w)] + Rest(b, j)).log.exchanged[t] == s.log.exchanged[t] + 2
    ensures ReturnCount(s, Prelude(s, a, b, w, t) + Rest(a, i) + [Step(w)] + Rest(b, j), t) > 0
  {
    var es0 := Prelude(s, a, b, w, t);
    var es1 := es0 + Rest(a, i);
    var es2 := es1 + [Step(w)];
    var s0 := BothValidated(s, a, b, w, t);
    PreludeRun(s, a, b, w, t);
    RunConcat(s, es0, Rest(a, i));
    RotateAlone(s0, a, t, i);
    var s1 := Run(s0, Rest(a, i));
    RunConcat(s, es1, [Step(w)]);
    RunCons(s1, Step(w), []);
    assert [Step(w)] + [] == [Step(w)];
    assert Returns(s1, Step(w), t);
    var s2 := Next(s1, Step(w));
    SaveStep(s1, w);
    RunConcat(s, es2, Rest(b, j));
    RotateAlone(s2, b, t, j);
    ReturnCountConcat(s, es2, Rest(b, j), t);
    ReturnCountConcat(s, es1, [Step(w)], t);
    CountOne(s1, Step(w), t);
  }

  lemma CountOne(s: State, e: Event, t: RefreshToken)
    ensures ReturnCount(s, [e], t) == if Returns(s, e, t) then 1 else 0
  {
    assert [e][..0] == [];
  }

  lemma SaveStep(s: State, w: ReqId)
    requires w in s.reqs && s.reqs[w].Saving?
    ensures var Saving(u, row) := s.reqs[w]; var s' := Next(s, Step(w));
            s'.db == SetRow(s.db, u, row) && s'.reqs == s.reqs[w := Done] && s'.minted == s.minted &&
            s'.now == s.now && s'.requireVerified == s.requireVerified && s'.log.exchanged == s.log.exchanged
  {
  }

  // Deleting the user o, who blocked t of another user, lifts the block.
  lemma DeleteOpens(s2: State, s: State, o: UserId, t: RefreshToken)
    requires Accepts(s, t) && o in s.db.users && o != t.user
    requires s2.db == Block(s.db, o, t) && s2.now == s.now && s2.minted == s.minted
    ensures Accepts(Next(s2, Delete(o)), t)
  {
    assert forall b :: b in Next(s2, Delete(o)).db.blocked ==> b in s.db.blocked;
  }

  lemma LogoutAlone(s: State, r: ReqId, o: UserId, t: RefreshToken)
    requires r !in s.reqs && t in s.minted && s.now < t.exp
    ensures Run(s, [BeginLogout(r, o, t), Step(r)]) == Goto(BlockToken(s, o, t), r, Done)
  {
    assert [BeginLogout(r, o, t), Step(r)] == [BeginLogout(r, o, t)] + [Step(r)];
    RunCons(s, BeginLogout(r, o, t), [Step(r)]);
    RunOne(Goto(s, r, LogoutParsed(o, t)), Step(r));
    LogoutStep(s, r, o, t);
  }

  lemma LogoutStep(s: State, r: ReqId, o: UserId, t: RefreshToken)
    ensures Next(Goto(s, r, LogoutParsed(o, t)), Step(r)) == Goto(BlockToken(s, o, t), r, Done)
  {
    assert s.reqs[r := LogoutParsed(o, t)][r := Done] == s.reqs[r := Done];
  }

  // A block row carries the user of the access token, and goes when that user is
  // deleted.
  lemma ForeignBlockEndsWithItsOwner(s: State, r: ReqId, o: UserId, t: RefreshToken)
    requires Accepts(s, t) && r !in s.reqs && o in s.db.users && o != t.user
    ensures !Accepts(Run(s, [BeginLogout(r, o, t), Step(r)]), t)
    ensures Accepts(Run(s, [BeginLogout(r, o, t), Step(r), Delete(o)]), t)
  {
    var s2 := Goto(BlockToken(s, o, t), r, Done);
    LogoutAlone(s, r, o, t);
    assert BlockRow(t, o) in s2.db.blocked;
    assert [BeginLogout(r, o, t), Step(r), Delete(o)] == [BeginLogout(r, o, t), Step(r)] + [Delete(o)];
    RunConcat(s, [BeginLogout(r, o, t), Step(r)], [Delete(o)]);
    RunOne(s2, Delete(o));
    DeleteOpens(s2, s, o, t);
  }

  // A logout by the token's own user comes too late to help: its insert fails.
  lemma {:induction false} OwnLogoutAfterForeign(s: State, r: ReqId, q: ReqId, o: UserId, t: RefreshToken)
    requires Accepts(s, t) && r !in s.reqs && q !in s.reqs && r != q && o in s.db.users && o != t.user
    ensures var logouts := [BeginLogout(r, o, t), Step(r)] + [BeginLogout(q, t.user, t), Step(q)];
            !Accepts(Run(s, logouts), t) && Accepts(Run(s, logouts + [Delete(o)]), t)
  {
    var s1 := Goto(BlockToken(s, o, t), r, Done);
    var s2 := Goto(BlockToken(s1, t.user, t), q, Done);
    var logouts := [BeginLogout(r, o, t), Step(r)] + [BeginLogout(q, t.user, t), Step(q)];
    LogoutAlone(s, r, o, t);
    LogoutAlone(s1, q, t.user, t);
    RunConcat(s, [BeginLogout(r, o, t), Step(r)], [BeginLogout(q, t.user, t), Step(q)]);
    NewBlockRow(s, o, t);
    RunConcat(s, logouts, [Delete(o)]);
    RunOne(s2, Delete(o));
    DeleteOpens(s2, s, o, t);
  }

  lemma NewBlockRow(s: State, o: UserId, t: RefreshToken)
    requires Accepts(s, t)
    ensures BlockRow(t, o) in Block(s.db, o, t).blocked && HasBlockRow(Block(s.db, o, t), t)
  {
    assert BlockRow(t, o) in s.db.blocked + {BlockRow(t, o)};
  }

  // A save read the row of t, and t was logged out by its own user.
  function ReadThenLoggedOut(s: State, w: ReqId, r: ReqId, t: RefreshToken): State {
    var s1 := if t.user in s.db.users then Goto(s, w, Saving(t.user, s.db.users[t.user])) else s;
    Goto(BlockToken(s1, t.user, t), r, Done)
  }

  lemma ReadThenLogout(s: State, w: ReqId, r: ReqId, t: RefreshToken)
    requires Accepts(s, t) && w !in s.reqs && r !in s.reqs && w != r
    ensures Run(s, [Save(s, w, t.user)] + [BeginLogout(r, t.user, t), Step(r)]) == ReadThenLoggedOut(s, w, r, t)
    ensures !Accepts(ReadThenLoggedOut(s, w, r, t), t)
  {
    RunConcat(s, [Save(s, w, t.user)], [BeginLogout(r, t.user, t), Step(r)]);
    SaveBegins(s, s, w, t.user);
    LogoutAlone(Goto(s, w, Saving(t.user, s.db.users[t.user])), r, t.user, t);
    NewBlockRow(s, t.user, t);
  }

  function Rejoin(u: UserId, guest: UserRow, rejoins: bool): seq<Event> {
    if rejoins then [NewUser(u, guest)] else []
  }

  // The deleted user, perhaps back as a guest, holds no token and has no block row.
  lemma DeletedThenBack(s: State, u: UserId, guest: UserRow, rejoins: bool)
    requires u in s.db.users
    ensures var s' := Run(s, [Delete(u)] + Rejoin(u, guest, rejoins));
            Stored(s'.db, u) == None && s'.db.blocked == RemoveUser(s.db, u).blocked &&
            s'.reqs == s.reqs && s'.minted == s.minted && s'.now == s.now
  {
    RunConcat(s, [Delete(u)], Rejoin(u, guest, rejoins));
    RunOne(s, Delete(u));
    if rejoins { RunOne(Next(s, Delete(u)), NewUser(u, guest)); }
  }

  // A save that read the row before the logout revives the session after it, once
  // the user was deleted, even if the user is back by then as a guest who joined
  // again.
  lemma {:induction false} RecreatedRowReopens(s: State, w: ReqId, r: ReqId, t: RefreshToken, rejoins: bool, guest: UserRow)
    requires Accepts(s, t) && w !in s.reqs && r !in s.reqs && w != r
    ensures var logout := [Save(s, w, t.user)] + [BeginLogout(r, t.user, t), Step(r)];
            var gone := logout + ([Delete(t.user)] + Rejoin(t.user, guest, rejoins));
            !Accepts(Run(s, logout), t) && !Accepts(Run(s, gone), t) && Returns(Run(s, gone), Step(w), t) &&
            Accepts(Run(s, gone + [Step(w)]), t)
  {
    var logout := [Save(s, w, t.user)] + [BeginLogout(r, t.user, t), Step(r)];
    var gone := [Delete(t.user)] + Rejoin(t.user, guest, rejoins);
    ReadThenLogout(s, w, r, t);
    DeletedThenBack(ReadThenLoggedOut(s, w, r, t), t.user, guest, rejoins);
    RunThree(s, logout, gone, [Step(w)]);
    RunConcat(s, logout, gone);
    RunOne(Run(s, logout + gone), Step(w));
    SaveRevives(s, Run(s, logout + gone), w, t);
  }

  lemma SaveRevives(s: State, s3: State, w: ReqId, t: RefreshToken)
    requires Accepts(s, t) && s3.now == s.now && s3.minted == s.minted
    requires w in s3.reqs && s3.reqs[w] == Saving(t.user, s.db.users[t.user])
    requires s3.db.blocked <= s.db.blocked
    ensures Accepts(Next(s3, Step(w)), t)
  {
    SaveStep(s3, w);
    assert forall b :: b in Next(s3, Step(w)).db.blocked ==> b in s.db.blocked;
  }

  lemma ValidateThenLogout(s: State, a: ReqId, b: ReqId, o: UserId, t: RefreshToken)
    requires Accepts(s, t) && a !in s.reqs && b !in s.reqs && a != b
    ensures Run(s, Validate(a, t) + [BeginLogout(b, o, t), Step(b)]) ==
            Goto(BlockToken(NoteAccepted(Goto(s, a, Validated(t)), a, t), o, t), b, Done)
  {
    RunConcat(s, Validate(a, t), [BeginLogout(b, o, t), Step(b)]);
    ValidateAlone(s, a, t);
    LogoutAlone(NoteAccepted(Goto(s, a, Validated(t)), a, t), b, o, t);
  }

  // The block list does not stop a refresh that was validated before the logout:
  // it exchanges the token and hands out a successor that works.
  lemma {:induction false} RacingRefreshOutlivesLogout(s: State, a: ReqId, b: ReqId, o: UserId, t: RefreshToken, id: nat)
    requires Accepts(s, t) && MayRefresh(s, t.user) && a !in s.reqs && b !in s.reqs && a != b
    requires (forall m :: m in s.minted ==> m.id != id) && (forall x :: x in s.db.blocked ==> x.token.id != id)
    ensures var s' := Run(s, Validate(a, t) + [BeginLogout(b, o, t), Step(b)] + Rest(a, id));
            var n := FreshToken(s, id, t.user);
            s'.log.exchanged[t] == s.log.exchanged[t] + 1 && Stored(s'.db, t.user) == Some(n) && Accepts(s', n)
  {
    var s2 := Goto(BlockToken(NoteAccepted(Goto(s, a, Validated(t)), a, t), o, t), b, Done);
    RunConcat(s, Validate(a, t) + [BeginLogout(b, o, t), Step(b)], Rest(a, id));
    ValidateThenLogout(s, a, b, o, t);
    BlockedIds(s.db, o, t, id);
    RotationWorks(s2, a, t, id);
  }

  lemma FreshIsAlive(s: State, id: nat, u: UserId)
    ensures FreshToken(s, id, u).exp > s.now
  {
  }

  lemma BlockedIds(db: Db, o: UserId, t: RefreshToken, id: nat)
    requires t.id != id && forall x :: x in db.blocked ==> x.token.id != id
    ensures forall x :: x in Block(db, o, t).blocked ==> x.token.id != id
  {
  }

  // A rotation works whatever block row the old token has, and its new token is
  // accepted, if no block row carries its id.
  lemma RotationWorks(s: State, a: ReqId, t: RefreshToken, id: nat)
    requires a in s.reqs && s.reqs[a] == Validated(t)
    requires CanSwap(s.db, t.user, t) && MayRefresh(s, t.user) && s.now < t.exp && t in s.minted
    requires (forall m :: m in s.minted ==> m.id != id) && (forall x :: x in s.db.blocked ==> x.token.id != id)
    ensures var s', n := Run(s, Rest(a, id)), FreshToken(s, id, t.user);
            s'.log.exchanged == s.log.exchanged + multiset{t} && Stored(s'.db, t.user) == Some(n) && Accepts(s', n)
  {
    RotateAlone(s, a, t, id);
    FreshIsAlive(s, id, t.user);
    SuccessorWorks(s, Run(s, Rest(a, id)), t, FreshToken(s, id, t.user));
  }

  lemma SuccessorWorks(s: State, s': State, t: RefreshToken, n: RefreshToken)
    requires CanSwap(s.db, t.user, t) && n.user == t.user && n != t && forall x :: x in s.db.blocked ==> x.token != n
    requires s'.db == SwapRefresh(Block(s.db, t.user, t), t.user, t, n) && n in s'.minted && s'.now == s.now < n.exp
    ensures Stored(s'.db, t.user) == Some(n) && Accepts(s', n)
  {
    assert forall x :: x in s'.db.blocked ==> x.token != n;
  }

  // A login that checked the old password before a password change stores its
  // token after it.
  lemma {:induction false} LoginOutlivesPasswordChange(s: State, r: ReqId, q: ReqId, u: UserId, id: nat)
    requires u in s.db.users && r !in s.reqs && q !in s.reqs && r != q && forall m :: m in s.minted ==> m.id != id
    ensures var s' := Run(s, [BeginIssue(r, u), Mint(r, id)] + ([BeginPassword(q, u)] + Steps(q, 2)) + [Step(r)]);
            Stored(s'.db, u) == Some(FreshToken(s, id, u)) && s'.db.users[u].passwordChangedAt == Some(s.now)
  {
    var n := FreshToken(s, id, u);
    var s1 := Goto(s, r, IssueMinted(u, n)).(minted := s.minted + {n});
    RunThree(s, [BeginIssue(r, u), Mint(r, id)], [BeginPassword(q, u)] + Steps(q, 2), [Step(r)]);
    IssueAlone(s, r, u, id);
    PasswordAlone(s1, q, u);
    RunOne(Run(s1, [BeginPassword(q, u)] + Steps(q, 2)), Step(r));
  }

  lemma IssueAlone(s: State, r: ReqId, u: UserId, id: nat)
    requires r !in s.reqs && forall m :: m in s.minted ==> m.id != id
    ensures var n := FreshToken(s, id, u);
            Run(s, [BeginIssue(r, u), Mint(r, id)]) == Goto(s, r, IssueMinted(u, n)).(minted := s.minted + {n})
  {
    assert [BeginIssue(r, u), Mint(r, id)] == [BeginIssue(r, u)] + [Mint(r, id)];
    RunCons(s, BeginIssue(r, u), [Mint(r, id)]);
    RunOne(Goto(s, r, IssueReady(u)), Mint(r, id));
    IssueMints(s, r, u, id);
  }

  lemma IssueMints(s: State, r: ReqId, u: UserId, id: nat)
    requires forall m :: m in s.minted ==> m.id != id
    ensures var n := FreshToken(s, id, u);
            Next(Goto(s, r, IssueReady(u)), Mint(r, id)) == Goto(s, r, IssueMinted(u, n)).(minted := s.minted + {n})
  {
    GotoTwice(s, r, IssueReady(u), IssueMinted(u, FreshToken(s, id, u)));
  }

  lemma PasswordAlone(s: State, r: ReqId, u: UserId)
    requires r !in s.reqs
    ensures var s' := Run(s, [BeginPassword(r, u)] + Steps(r, 2));
            s'.db == SetPassword(s.db, u, s.now) && s'.reqs == s.reqs[r := Done]
  {
    RunCons(s, BeginPassword(r, u), Steps(r, 2));
    RunSteps(Goto(s, r, PasswordReady(u)), r, 2);
    PasswordClock(s, r, u);
    PasswordStores(s, r, u);
  }

  lemma PasswordClock(s: State, r: ReqId, u: UserId)
    ensures Next(Goto(s, r, PasswordReady(u)), Step(r)) == Goto(s, r, PasswordTimed(u, s.now))
  {
    GotoTwice(s, r, PasswordReady(u), PasswordTimed(u, s.now));
  }

  lemma PasswordStores(s: State, r: ReqId, u: UserId)
    ensures var s' := Run(Goto(s, r, PasswordTimed(u, s.now)), Steps(r, 1));
            s'.db == SetPassword(s.db, u, s.now) && s'.reqs == s.reqs[r := Done]
  {
    LastStep(Goto(s, r, PasswordTimed(u, s.now)), r);
    assert s.reqs[r := PasswordTimed(u, s.now)][r := Done] == s.reqs[r := Done];
  }
}
