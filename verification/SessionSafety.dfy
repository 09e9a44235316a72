// Refresh tokens, one token t at a time: how often it can be stored, exchanged
// and accepted. Nothing is assumed of the runs: what a stale full-record save of
// t can undo is counted by ReturnCount.
module SessionSafety {
  import opened Clock
  import opened Options
  import opened UserStore
  import opened SessionMachine

  // The token a request has minted and not yet tried to store.
  function Pending(p: Phase): Option<RefreshToken> {
    match p
    case RefreshMinted(_, next) => Some(next)
    case OldBlocked(_, next) => Some(next)
    case IssueMinted(_, next) => Some(next)
    case _ => None
  }

  function Holder(p: Phase): UserId {
    match p
    case RefreshMinted(t, _) => t.user
    case OldBlocked(t, _) => t.user
    case IssueMinted(u, _) => u
    case _ => 0
  }

  predicate Holds(s: State, t: RefreshToken) { Stored(s.db, t.user) == Some(t) }

  predicate Awaits(s: State, r: ReqId, t: RefreshToken) {
    r in s.reqs && Pending(s.reqs[r]) == Some(t)
  }

  // Only the row of its own user ever holds t, and t was minted.
  ghost predicate RowInv(s: State, t: RefreshToken) {
    (forall u :: Stored(s.db, u) == Some(t) ==> u == t.user) &&
    (s.log.installs[t] > 0 ==> t in s.minted)
  }

  // At most one request is about to store t, and then t was never stored.
  ghost predicate PendingInv(s: State, t: RefreshToken) {
    (forall r :: Awaits(s, r, t) ==> Holder(s.reqs[r]) == t.user && t in s.minted && s.log.installs[t] == 0) &&
    (forall r, q :: Awaits(s, r, t) && Awaits(s, q, t) ==> r == q)
  }

  ghost predicate SavingInv(s: State, t: RefreshToken) {
    forall r :: r in s.reqs && s.reqs[r].Saving? && s.reqs[r].row.refresh == Some(t) ==>
      s.reqs[r].user == t.user && s.log.installs[t] > 0
  }

  // Every exchange used up one entry of t into the table, and so does holding t.
  ghost predicate TokenInv(s: State, t: RefreshToken) {
    RowInv(s, t) && PendingInv(s, t) && SavingInv(s, t) &&
    s.log.exchanged[t] + (if Holds(s, t) then 1 else 0) <= s.log.installs[t]
  }

  predicate Enters(s: State, s': State, t: RefreshToken) { Holds(s', t) && !Holds(s, t) }

  // From s to s' the invariant is kept and entries of t into the table are counted.
  ghost predicate Follows(s: State, s': State, t: RefreshToken) {
    TokenInv(s', t) && s'.log.installs[t] == s.log.installs[t] + (if Enters(s, s', t) then 1 else 0)
  }

  // db' differs from the tables of s at most in the row of u.
  ghost predicate OnlyRow(s: State, u: UserId, db': Db) {
    forall v :: v != u ==> Stored(db', v) == Stored(s.db, v)
  }

  lemma FollowsGoto(s: State, r: ReqId, p: Phase, t: RefreshToken)
    requires TokenInv(s, t)
    requires Pending(p) == Some(t) ==> Awaits(s, r, t) && Holder(p) == Holder(s.reqs[r])
    requires p.Saving? && p.row.refresh == Some(t) ==> p.user == t.user && s.log.installs[t] > 0
    ensures Follows(s, Goto(s, r, p), t)
  {
    var s' := Goto(s, r, p);
    assert forall q :: Awaits(s', q, t) ==> Awaits(s, q, t) && Holder(s'.reqs[q]) == Holder(s.reqs[q]);
  }

  // A statement on the row of u may store t there if the row already held it, if
  // nobody is about to, or if it was stored before.
  lemma FollowsWrite(s: State, u: UserId, db': Db, t: RefreshToken)
    requires TokenInv(s, t) && OnlyRow(s, u, db')
    requires Stored(db', u) == Some(t) ==>
               Stored(s.db, u) == Some(t) || (u == t.user && t in s.minted && forall r :: !Awaits(s, r, t))
    ensures Follows(s, Write(s, u, db'), t)
  {
    var s' := Write(s, u, db');
    assert forall q :: Awaits(s', q, t) ==> Awaits(s, q, t);
    assert forall v :: Stored(db', v) == Some(t) ==> v == t.user;
  }

  // The invariant does not read the clock, the block rows or the other history.
  lemma FollowsFrame(s: State, s': State, t: RefreshToken)
    requires TokenInv(s, t)
    requires s'.db.users == s.db.users && s'.reqs == s.reqs && s.minted <= s'.minted
    requires s'.log.installs[t] == s.log.installs[t] && s'.log.exchanged[t] == s.log.exchanged[t]
    ensures Follows(s, s', t)
  {
    assert forall u :: Stored(s'.db, u) == Stored(s.db, u);
    assert forall q :: Awaits(s', q, t) <==> Awaits(s, q, t);
  }

  // Minting n, whose id no earlier token carries.
  lemma FollowsMint(s: State, r: ReqId, p: Phase, n: RefreshToken, t: RefreshToken)
    requires TokenInv(s, t) && r in s.reqs && n !in s.minted
    requires Pending(p) == Some(n) && Holder(p) == n.user
    ensures Follows(s, Goto(s, r, p).(minted := s.minted + {n}), t)
  {
    var s' := Goto(s, r, p).(minted := s.minted + {n});
    assert forall q :: Awaits(s', q, t) ==> (q == r && n == t) || Awaits(s, q, t);
  }

  lemma NoneAwaits(s: State, r: ReqId, t: RefreshToken)
    requires PendingInv(s, t) && Awaits(s, r, t)
    ensures forall q :: !Awaits(Goto(s, r, Done), q, t)
    ensures Holder(s.reqs[r]) == t.user && t in s.minted && s.log.installs[t] == 0
  {
    assert forall q :: Awaits(Goto(s, r, Done), q, t) ==> q != r && Awaits(s, q, t);
  }

  lemma SwapWrite(s: State, r: ReqId, o: RefreshToken, n: RefreshToken, t: RefreshToken)
    requires TokenInv(s, t) && r in s.reqs && s.reqs[r] == OldBlocked(o, n) && CanSwap(s.db, o.user, o)
    ensures Follows(s, Write(Goto(s, r, Done), o.user, SwapRefresh(s.db, o.user, o, n)), t)
    ensures n == t ==> n != o
  {
    if n == t { NoneAwaits(s, r, t); }
    FollowsGoto(s, r, Done, t);
    FollowsWrite(Goto(s, r, Done), o.user, SwapRefresh(s.db, o.user, o, n), t);
  }

  // The exchange of o is paid for by o having been held before and not after.
  lemma FollowsExchange(s: State, s1: State, o: RefreshToken, t: RefreshToken)
    requires TokenInv(s, t) && Follows(s, s1, t) && s1.log.exchanged == s.log.exchanged
    requires o == t ==> Holds(s, t) && !Holds(s1, t)
    ensures Follows(s, NoteExchanged(s1, o), t)
  {
    var s' := NoteExchanged(s1, o);
    assert forall q :: Awaits(s', q, t) <==> Awaits(s1, q, t);
  }

  // A rotation swaps the old token for the new one and notes the exchange.
  lemma FollowsSwap(s: State, r: ReqId, t: RefreshToken)
    requires TokenInv(s, t) && r in s.reqs && s.reqs[r].OldBlocked? && CanSwap(s.db, s.reqs[r].tok.user, s.reqs[r].tok)
    ensures Follows(s, Advance(s, r), t)
  {
    var OldBlocked(o, n) := s.reqs[r];
    SwapWrite(s, r, o, n, t);
    FollowsExchange(s, Write(Goto(s, r, Done), o.user, SwapRefresh(s.db, o.user, o, n)), o, t);
  }

  lemma FollowsIssue(s: State, r: ReqId, t: RefreshToken)
    requires TokenInv(s, t) && r in s.reqs && s.reqs[r].IssueMinted?
    ensures Follows(s, Advance(s, r), t)
  {
    var IssueMinted(u, n) := s.reqs[r];
    if n == t { NoneAwaits(s, r, t); }
    FollowsGoto(s, r, Done, t);
    FollowsWrite(Goto(s, r, Done), u, SetRefresh(s.db, u, Some(n)), t);
  }

  lemma FollowsPassword(s: State, r: ReqId, t: RefreshToken)
    requires TokenInv(s, t) && r in s.reqs && s.reqs[r].PasswordTimed?
    ensures Follows(s, Advance(s, r), t)
  {
    var PasswordTimed(u, at) := s.reqs[r];
    FollowsGoto(s, r, Done, t);
    FollowsWrite(Goto(s, r, Done), u, SetPassword(s.db, u, at), t);
  }

  // A save may put back a token that was stored before.
  lemma FollowsSave(s: State, r: ReqId, t: RefreshToken)
    requires TokenInv(s, t) && r in s.reqs && s.reqs[r].Saving?
    ensures Follows(s, Advance(s, r), t)
  {
    var Saving(u, row) := s.reqs[r];
    FollowsGoto(s, r, Done, t);
    FollowsWrite(Goto(s, r, Done), u, SetRow(s.db, u, row), t);
  }

  lemma SaveReturns(s: State, r: ReqId, t: RefreshToken)
    requires SavingInv(s, t) && r in s.reqs && s.reqs[r].Saving?
    ensures Returns(s, Step(r), t) <==> Enters(s, Advance(s, r), t)
    ensures Returns(s, Step(r), t) ==> s.log.installs[t] > 0
  {
  }

  lemma FollowsReset(s: State, r: ReqId, t: RefreshToken)
    requires TokenInv(s, t) && r in s.reqs && s.reqs[r].ResetTimed?
    ensures Follows(s, Advance(s, r), t)
  {
    var ResetTimed(k, x, at) := s.reqs[r];
    var stop := Goto(s, r, Done);
    var db' := SetPasswordIfUnchanged(s.db, k.user, x, at);
    FollowsGoto(s, r, Done, t);
    if CanReset(s.db, k.user, x) {
      FollowsWrite(stop, k.user, db', t);
      FollowsFrame(Write(stop, k.user, db'), Advance(s, r), t);
    }
  }

  lemma FollowsAccept(s: State, r: ReqId, t: RefreshToken)
    requires TokenInv(s, t) && r in s.reqs && s.reqs[r].UserFound?
    ensures Follows(s, Advance(s, r), t)
  {
    var o := s.reqs[r].tok;
    FollowsGoto(s, r, Done, t);
    FollowsGoto(s, r, Validated(o), t);
    FollowsFrame(Goto(s, r, Validated(o)), NoteAccepted(Goto(s, r, Validated(o)), r, o), t);
  }

  lemma FollowsBlock(s: State, owner: UserId, o: RefreshToken, r: ReqId, p: Phase, t: RefreshToken)
    requires TokenInv(s, t) && !p.Saving?
    requires Pending(p) == Some(t) ==> Awaits(s, r, t) && Holder(p) == Holder(s.reqs[r])
    ensures Follows(s, Goto(BlockToken(s, owner, o), r, p), t)
  {
    FollowsFrame(s, BlockToken(s, owner, o), t);
    FollowsGoto(BlockToken(s, owner, o), r, p, t);
  }

  // Phases whose step only moves the program counter.
  predicate Moves(p: Phase) {
    !(p.IssueMinted? || p.PasswordTimed? || p.ResetTimed? || p.Saving? ||
      p.RefreshMinted? || p.LogoutParsed? || p.UserFound? || p.OldBlocked?)
  }

  lemma MoveShape(s: State, r: ReqId)
    requires r in s.reqs && Moves(s.reqs[r])
    ensures Advance(s, r) == s || Advance(s, r) == Goto(s, r, Advance(s, r).reqs[r])
    ensures r in Advance(s, r).reqs
    ensures var p := Advance(s, r).reqs[r]; Pending(p).None? && !p.Saving?
  {
  }

  lemma FollowsAdvance(s: State, r: ReqId, t: RefreshToken)
    requires TokenInv(s, t) && r in s.reqs
    ensures Follows(s, Advance(s, r), t)
  {
    match s.reqs[r]
    case OldBlocked(o, n) =>
      if CanSwap(s.db, o.user, o) { FollowsSwap(s, r, t); } else { FollowsGoto(s, r, Done, t); }
    case ResetTimed(_, _, _) => FollowsReset(s, r, t);
    case IssueMinted(_, _) => FollowsIssue(s, r, t);
    case PasswordTimed(_, _) => FollowsPassword(s, r, t);
    case Saving(_, _) => FollowsSave(s, r, t);
    case UserFound(_) => FollowsAccept(s, r, t);
    case LogoutParsed(owner, o) => FollowsBlock(s, owner, o, r, Done, t);
    case RefreshMinted(o, n) =>
      if s.now < o.exp { FollowsBlock(s, o.user, o, r, OldBlocked(o, n), t); } else { FollowsGoto(s, r, OldBlocked(o, n), t); }
    case _ =>
      MoveShape(s, r);
      FollowsGoto(s, r, Advance(s, r).reqs[r], t);
  }

  lemma FollowsBegin(s: State, e: Event, t: RefreshToken)
    requires TokenInv(s, t)
    requires e.BeginRefresh? || e.BeginIssue? || e.BeginLogout? || e.BeginPassword? || e.BeginReset? || e.BeginSave?
    ensures Follows(s, Next(s, e), t)
  {
    var s' := Next(s, e);
    if s' != s {
      assert s' == Goto(s, e.r, s'.reqs[e.r]);
      if e.BeginSave? { assert s'.reqs[e.r].row.refresh == Stored(s.db, e.user); }
      FollowsGoto(s, e.r, s'.reqs[e.r], t);
    }
  }

  lemma FollowsNewUser(s: State, u: UserId, row: UserRow, t: RefreshToken)
    requires TokenInv(s, t)
    ensures Follows(s, Next(s, NewUser(u, row)), t)
  {
    var s' := Next(s, NewUser(u, row));
    assert forall q :: Awaits(s', q, t) <==> Awaits(s, q, t);
    assert forall v :: Stored(s'.db, v) == Some(t) ==> Stored(s.db, v) == Some(t);
  }

  lemma FollowsMintEvent(s: State, r: ReqId, id: nat, t: RefreshToken)
    requires TokenInv(s, t) && r in s.reqs
    ensures Follows(s, MintFor(s, r, id), t)
  {
    var s' := MintFor(s, r, id);
    if s' != s {
      var n := Pending(s'.reqs[r]).value;
      assert n !in s.minted;
      FollowsMint(s, r, s'.reqs[r], n, t);
    }
  }

  // Every event keeps the invariant of every token and counts its entries.
  lemma {:induction false} FollowsNext(s: State, e: Event, t: RefreshToken)
    requires TokenInv(s, t)
    ensures Follows(s, Next(s, e), t)
  {
    match e
    case Step(r) => if r in s.reqs { FollowsAdvance(s, r, t); }
    case Mint(r, id) => if r in s.reqs { FollowsMintEvent(s, r, id, t); }
    case SkipBlock(r) =>
      if r in s.reqs && s.reqs[r].RefreshMinted? { FollowsGoto(s, r, OldBlocked(s.reqs[r].tok, s.reqs[r].next), t); }
    case Abort(r) => if r in s.reqs { FollowsGoto(s, r, Done, t); }
    case Clear(u) => FollowsWrite(s, u, SetRefresh(s.db, u, None), t);
    case SetStatus(u, active, clear) => FollowsWrite(s, u, SetActive(s.db, u, active, clear), t);
    case Delete(u) => if u in s.db.users { FollowsWrite(s, u, RemoveUser(s.db, u), t); }
    case Tick(_) => FollowsFrame(s, Next(s, e), t);
    case Cleanup(_) => FollowsFrame(s, Next(s, e), t);
    case NewUser(u, row) => FollowsNewUser(s, u, row, t);
    case _ => FollowsBegin(s, e, t);
  }

  // The saves that put t back are exactly the events by which a token that was
  // stored before enters the table.
  lemma {:induction false} ReturnsIff(s: State, e: Event, t: RefreshToken)
    requires TokenInv(s, t)
    ensures Returns(s, e, t) <==> s.log.installs[t] > 0 && Enters(s, Next(s, e), t)
  {
    if e.Step? && e.r in s.reqs && s.reqs[e.r].Saving? {
      SaveReturns(s, e.r, t);
    } else if s.log.installs[t] > 0 && Enters(s, Next(s, e), t) {
      OnlyPendingEnters(s, e, t);
    }
  }

  lemma OnlyPendingEnters(s: State, e: Event, t: RefreshToken)
    requires Enters(s, Next(s, e), t) && !(e.Step? && e.r in s.reqs && s.reqs[e.r].Saving?)
    ensures e.Step? && Awaits(s, e.r, t)
  {
    if e.Step? && e.r in s.reqs && Moves(s.reqs[e.r]) { MoveShape(s, e.r); }
  }

  lemma {:induction false} SafeRun(now: Time, rv: bool, es: seq<Event>, t: RefreshToken)
    ensures var s, n := Run(Init(now, rv), es), ReturnCount(Init(now, rv), es, t);
            TokenInv(s, t) && s.log.installs[t] <= 1 + n && (n > 0 ==> s.log.installs[t] == 1 + n)
  {
    if es != [] {
      var s, e := Run(Init(now, rv), es[..|es| - 1]), es[|es| - 1];
      SafeRun(now, rv, es[..|es| - 1], t);
      FollowsNext(s, e, t);
      ReturnsIff(s, e, t);
    }
  }

  // In every run, each refresh token is exchanged successfully at most once, and
  // once more for every time a stale save put it back.
  lemma {:induction false} AtMostOneExchange(now: Time, rv: bool, es: seq<Event>, t: RefreshToken)
    ensures Run(Init(now, rv), es).log.exchanged[t] <= 1 + ReturnCount(Init(now, rv), es, t)
  {
    SafeRun(now, rv, es, t);
  }

  // A token is stored at most once in a run exactly when no save puts it back.
  lemma {:induction false} StoredOnceIff(now: Time, rv: bool, es: seq<Event>, t: RefreshToken)
    ensures Run(Init(now, rv), es).log.installs[t] <= 1 <==> ReturnCount(Init(now, rv), es, t) == 0
  {
    SafeRun(now, rv, es, t);
  }

  // t was stored and its row no longer holds it: rotated, overwritten by a login,
  // cleared, or deleted.
  ghost predicate Left(s: State, t: RefreshToken) {
    s.log.installs[t] > 0 && !Holds(s, t)
  }

  ghost predicate NotStored(s: State, t: RefreshToken) {
    forall u :: Stored(s.db, u) != Some(t)
  }

  lemma OnlySwapsExchange(s: State, r: ReqId)
    requires r in s.reqs && !s.reqs[r].OldBlocked? && !s.reqs[r].UserFound?
    ensures Advance(s, r).log.exchanged == s.log.exchanged && Advance(s, r).log.accepted == s.log.accepted
  {
    match s.reqs[r]
    case PasswordTimed(u, at) =>
    case ResetTimed(k, x, at) =>
    case Saving(u, row) =>
    case IssueMinted(u, n) =>
    case RefreshMinted(o, n) =>
    case LogoutParsed(owner, o) =>
    case _ => MoveShape(s, r);
  }

  // Validation and rotation both compare against the stored token, so a token
  // that is not stored is neither accepted nor exchanged by any step.
  lemma {:induction false} NotStoredAdvance(s: State, r: ReqId, t: RefreshToken)
    requires r in s.reqs && NotStored(s, t)
    ensures Advance(s, r).log.exchanged[t] == s.log.exchanged[t]
    ensures forall q :: (q, t) in Advance(s, r).log.accepted ==> (q, t) in s.log.accepted
  {
    if s.reqs[r].OldBlocked? || s.reqs[r].UserFound? {
      var o := s.reqs[r].tok;
      assert Stored(s.db, o.user) != Some(t);
      if CanSwap(s.db, o.user, o) { assert o != t; }
    } else {
      OnlySwapsExchange(s, r);
    }
  }

  lemma LeftNext(s: State, e: Event, t: RefreshToken)
    requires TokenInv(s, t) && Left(s, t)
    ensures Next(s, e).log.exchanged[t] == s.log.exchanged[t]
    ensures forall r :: (r, t) in Next(s, e).log.accepted ==> (r, t) in s.log.accepted
  {
    assert NotStored(s, t);
    if e.Step? {
      if e.r in s.reqs { NotStoredAdvance(s, e.r, t); }
    }
  }

  lemma {:induction false} LeftRun(s: State, es: seq<Event>, t: RefreshToken)
    requires TokenInv(s, t) && Left(s, t) && ReturnCount(s, es, t) == 0
    ensures TokenInv(Run(s, es), t) && Left(Run(s, es), t)
    ensures Run(s, es).log.exchanged[t] == s.log.exchanged[t]
    ensures forall r :: (r, t) in Run(s, es).log.accepted ==> (r, t) in s.log.accepted
  {
    if es != [] {
      var s1, e := Run(s, es[..|es| - 1]), es[|es| - 1];
      LeftRun(s, es[..|es| - 1], t);
      LeftNext(s1, e, t);
      FollowsNext(s1, e, t);
      ReturnsIff(s1, e, t);
    }
  }

  // No resurrection. Once a token has left the table, no row holds it, no
  // validation accepts it and no rotation exchanges it, not even those already in
  // flight, in every continuation in which no save puts it back.
  lemma {:induction false} NoResurrection(now: Time, rv: bool, pre: seq<Event>, post: seq<Event>, t: RefreshToken)
    requires var s := Run(Init(now, rv), pre); Left(s, t) && ReturnCount(s, post, t) == 0
    ensures Run(Init(now, rv), pre + post).log.exchanged[t] == Run(Init(now, rv), pre).log.exchanged[t]
    ensures forall r :: (r, t) in Run(Init(now, rv), pre + post).log.accepted ==> (r, t) in Run(Init(now, rv), pre).log.accepted
    ensures forall u :: Stored(Run(Init(now, rv), pre + post).db, u) != Some(t)
  {
    var s := Run(Init(now, rv), pre);
    RunConcat(Init(now, rv), pre, post);
    SafeRun(now, rv, pre, t);
    LeftRun(s, post, t);
    assert NotStored(Run(s, post), t);
  }

  // And exactly in those: a token that has left is stored again at some point of a
  // continuation if and only if some save puts it back.
  lemma {:induction false} ResurrectedIff(now: Time, rv: bool, pre: seq<Event>, post: seq<Event>, t: RefreshToken)
    requires Left(Run(Init(now, rv), pre), t)
    ensures (exists i :: 0 <= i <= |post| && Holds(Run(Run(Init(now, rv), pre), post[..i]), t)) <==>
            ReturnCount(Run(Init(now, rv), pre), post, t) > 0
  {
    var s := Run(Init(now, rv), pre);
    SafeRun(now, rv, pre, t);
    if ReturnCount(s, post, t) == 0 {
      forall i | 0 <= i <= |post| ensures !Holds(Run(s, post[..i]), t) {
        CountPrefix(s, post, i, t);
        LeftRun(s, post[..i], t);
      }
    } else {
      var i := ReturnPoint(s, post, t);
      assert Holds(Run(s, post[..i]), t);
    }
  }

  lemma CountPrefix(s: State, es: seq<Event>, i: nat, t: RefreshToken)
    requires i <= |es| && ReturnCount(s, es, t) == 0
    ensures ReturnCount(s, es[..i], t) == 0
  {
    assert es == es[..i] + es[i..];
    ReturnCountConcat(s, es[..i], es[i..], t);
  }

  lemma {:induction false} ReturnPoint(s: State, es: seq<Event>, t: RefreshToken) returns (i: nat)
    requires TokenInv(s, t) && ReturnCount(s, es, t) > 0
    ensures i <= |es| && Holds(Run(s, es[..i]), t)
  {
    var front := es[..|es| - 1];
    if ReturnCount(s, front, t) > 0 {
      i := ReturnPoint(s, front, t);
      assert front[..i] == es[..i];
    } else {
      i := |es|;
      assert es[..i] == es;
      RunInv(s, front, t);
      ReturnsIff(Run(s, front), es[|es| - 1], t);
    }
  }

  lemma {:induction false} RunInv(s: State, es: seq<Event>, t: RefreshToken)
    requires TokenInv(s, t)
    ensures TokenInv(Run(s, es), t)
  {
    if es != [] {
      RunInv(s, es[..|es| - 1], t);
      FollowsNext(Run(s, es[..|es| - 1]), es[|es| - 1], t);
    }
  }

  // The event clears the stored token of u: a password change or reset that
  // commits, a status or role change, an email change, an admin logout.
  ghost predicate ClearsSession(s: State, e: Event, u: UserId) {
    u in s.db.users &&
    (match e
     case Step(r) =>
       r in s.reqs &&
       (match s.reqs[r]
        case PasswordTimed(v, _) => v == u
        case ResetTimed(k, x, _) => k.user == u && CanReset(s.db, u, x)
        case _ => false)
     case Clear(v) => v == u
     case SetStatus(v, _, clear) => v == u && clear
     case Delete(v) => v == u
     case _ => false)
  }

  // A refresh already past validation when the session is cleared never completes
  // its rotation, unless a save puts the token back afterwards; if none did before
  // either, the token is never exchanged at all.
  lemma {:induction false} ClearedSessionCannotRotate(now: Time, rv: bool, pre: seq<Event>, e: Event, post: seq<Event>, u: UserId, t: RefreshToken)
    requires Stored(Run(Init(now, rv), pre).db, u) == Some(t)
    requires ClearsSession(Run(Init(now, rv), pre), e, u)
    requires ReturnCount(Run(Init(now, rv), pre + [e]), post, t) == 0
    ensures Run(Init(now, rv), pre + [e] + post).log.exchanged[t] == Run(Init(now, rv), pre).log.exchanged[t]
    ensures Run(Init(now, rv), pre).log.exchanged[t] <= ReturnCount(Init(now, rv), pre, t)
    ensures forall r :: (r, t) in Run(Init(now, rv), pre + [e] + post).log.accepted ==> (r, t) in Run(Init(now, rv), pre).log.accepted
  {
    var s0 := Init(now, rv);
    var s := Run(s0, pre);
    SafeRun(now, rv, pre, t);
    assert Run(s0, pre + [e]) == Next(s, e) by {
      RunConcat(s0, pre, [e]);
      assert Run(s, [e][..0]) == s;
    }
    ClearRetires(s, e, u, t);
    NoResurrection(now, rv, pre + [e], post, t);
  }

  lemma ClearRetires(s: State, e: Event, u: UserId, t: RefreshToken)
    requires TokenInv(s, t) && Stored(s.db, u) == Some(t) && ClearsSession(s, e, u)
    ensures Left(Next(s, e), t) && Next(s, e).log.exchanged[t] == s.log.exchanged[t] && Next(s, e).log.accepted == s.log.accepted
  {
  }

  // ---- what can start a new session ----

  // The request may still store a token for u: a login past its password check,
  // or a save that read one.
  predicate MayRefill(p: Phase, u: UserId) {
    (p.IssueReady? && p.user == u) || (p.IssueMinted? && p.user == u) || (p.Saving? && p.user == u && p.row.refresh.Some?)
  }

  ghost predicate Empty(s: State, u: UserId) {
    Stored(s.db, u) == None && forall r :: r in s.reqs ==> !MayRefill(s.reqs[r], u)
  }

  lemma EmptyAdvance(s: State, r: ReqId, u: UserId)
    requires Empty(s, u) && r in s.reqs
    ensures Empty(Advance(s, r), u)
  {
    if Moves(s.reqs[r]) {
      MoveShape(s, r);
      assert !MayRefill(Advance(s, r).reqs[r], u);
    } else {
      match s.reqs[r]
      case OldBlocked(o, n) => assert o.user == u ==> !CanSwap(s.db, u, o);
      case IssueMinted(v, n) =>
      case PasswordTimed(v, at) =>
      case ResetTimed(k, x, at) =>
      case Saving(v, row) =>
      case _ =>
    }
  }

  lemma EmptyNext(s: State, e: Event, u: UserId)
    requires Empty(s, u) && !(e.BeginIssue? && e.user == u)
    ensures Empty(Next(s, e), u)
  {
    if e.Step? {
      if e.r in s.reqs { EmptyAdvance(s, e.r, u); }
    }
  }

  lemma {:induction false} EmptyRun(s: State, es: seq<Event>, u: UserId)
    requires Empty(s, u) && forall e :: e in es ==> !(e.BeginIssue? && e.user == u)
    ensures Empty(Run(s, es), u)
  {
    if es != [] {
      EmptyRun(s, es[..|es| - 1], u);
      EmptyNext(Run(s, es[..|es| - 1]), es[|es| - 1], u);
    }
  }

  // After a password change, a reset or any other clearing of the session of u, u
  // has no session until the next login, if no login of u was already past its
  // password check and no save had read a token of u.
  lemma {:induction false} ClearedUntilLogin(s: State, e: Event, post: seq<Event>, u: UserId)
    requires ClearsSession(s, e, u) && forall r :: r in s.reqs ==> !MayRefill(s.reqs[r], u)
    requires forall x :: x in post ==> !(x.BeginIssue? && x.user == u)
    ensures Stored(Run(Next(s, e), post).db, u) == None
  {
    if e.Step? { ClearingStep(s, e.r, u); }
    EmptyRun(Next(s, e), post, u);
  }

  lemma ClearingStep(s: State, r: ReqId, u: UserId)
    requires ClearsSession(s, Step(r), u) && forall q :: q in s.reqs ==> !MayRefill(s.reqs[q], u)
    ensures Empty(Next(s, Step(r)), u)
  {
  }
}
