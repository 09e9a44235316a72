// Logout: a refresh token with a block row is refused by every request that has
// not passed its block query yet, although the block check and the expiry check
// read the clock at different moments and expired block rows are cleaned up. The
// row may carry any user. What can undo it: deleting that user while the token is
// still held, or storing the token again once the row is gone.
module LogoutSafety {
  import opened Clock
  import opened Options
  import opened UserStore
  import opened SessionMachine
  import opened SessionSafety

  // The unique index holds, and a block query is dated by a past clock reading.
  ghost predicate TableInv(s: State) {
    (forall b, c :: b in s.db.blocked && c in s.db.blocked && b.token == c.token ==> b == c) &&
    (forall r :: r in s.reqs && s.reqs[r].BlockQuery? ==> s.reqs[r].at <= s.now)
  }

  // The row of t could have been asked for by its own user or by another one.
  // Deleting another one lifts the block while t is still held.
  predicate Lifts(s: State, e: Event, t: RefreshToken) {
    e.Delete? && e.user in s.db.users && BlockRow(t, e.user) in s.db.blocked &&
    e.user != t.user && Holds(s, t) && s.now < t.exp
  }

  // At some point of the run t was alive without a block row.
  predicate HadGap(s: State, es: seq<Event>, t: RefreshToken) {
    Unblocked(Run(s, es), t) || (es != [] && HadGap(s, es[..|es| - 1], t))
  }

  predicate Unblocked(s: State, t: RefreshToken) { !HasBlockRow(s.db, t) && s.now < t.exp }

  // The event lifts the block of t, or stores t after a gap. By ReturnsIff a token
  // that was stored before is stored only by a save that returns it.
  predicate Undoes(s: State, es: seq<Event>, e: Event, t: RefreshToken) {
    var s1 := Run(s, es);
    Lifts(s1, e, t) || (HadGap(s, es, t) && Enters(s1, Next(s1, e), t))
  }

  predicate StaysShut(s: State, es: seq<Event>, t: RefreshToken) {
    es == [] || (StaysShut(s, es[..|es| - 1], t) && !Undoes(s, es[..|es| - 1], es[|es| - 1], t))
  }

  // t has its row, or has expired, or left the table in the gap.
  ghost predicate KeptOut(s: State, t: RefreshToken, gap: bool) {
    if gap then !Holds(s, t) || t.exp <= s.now else HasBlockRow(s.db, t) || t.exp <= s.now
  }

  // How far a request for t that had not passed its block query can have come. The
  // order of the two checks matters: a request that passes the block check only
  // because the row expired meets the expiry check afterwards.
  ghost predicate Held(s: State, t: RefreshToken, gap: bool, p: Phase) {
    match p
    case NotBlocked(x) => x == t ==> t.exp <= s.now || (gap && !Holds(s, t))
    case Unexpired(x) => x == t ==> gap && !Holds(s, t)
    case UserFound(x) => x == t ==> gap && !Holds(s, t)
    case Validated(x) => x != t
    case Refetched(x) => x != t
    case RefreshMinted(x, _) => x != t
    case OldBlocked(x, _) => x != t
    case _ => true
  }

  // The request has passed its block query for t.
  predicate PastBlock(p: Phase, t: RefreshToken) {
    match p
    case NotBlocked(x) => x == t
    case Unexpired(x) => x == t
    case UserFound(x) => x == t
    case Validated(x) => x == t
    case Refetched(x) => x == t
    case RefreshMinted(x, _) => x == t
    case OldBlocked(x, _) => x == t
    case _ => false
  }

  // An accepted request that has not swapped yet.
  predicate Rotates(p: Phase, t: RefreshToken) {
    (p.Validated? || p.Refetched? || p.RefreshMinted? || p.OldBlocked?) && p.tok == t
  }

  ghost predicate HeldBack(s: State, t: RefreshToken, gap: bool, early: set<ReqId>) {
    forall r :: r in s.reqs && r !in early ==> Held(s, t, gap, s.reqs[r])
  }

  // Block rows are inserted once and leave the table only when expired or with
  // their owner.
  lemma {:induction false} BlocksStayAdvance(s: State, r: ReqId)
    requires r in s.reqs
    ensures Advance(s, r).now == s.now
    ensures s.db.blocked <= Advance(s, r).db.blocked
    ensures forall b :: b in Advance(s, r).db.blocked && b !in s.db.blocked ==>
              !HasBlockRow(s.db, b.token) && forall c :: c in Advance(s, r).db.blocked && c.token == b.token ==> c == b
  {
    if Moves(s.reqs[r]) {
      MoveShape(s, r);
    } else {
      match s.reqs[r]
      case RefreshMinted(x, next) =>
      case LogoutParsed(owner, x) =>
      case PasswordTimed(u, at) =>
      case ResetTimed(k, x, at) =>
      case Saving(u, row) =>
      case IssueMinted(u, n) =>
      case OldBlocked(x, n) =>
      case _ =>
    }
  }

  lemma NowGrows(s: State, e: Event)
    ensures s.now <= Next(s, e).now
  {
    if e.Step? && e.r in s.reqs { BlocksStayAdvance(s, e.r); }
  }

  // A block row that goes while t is alive goes with its owner.
  lemma RowGoes(s: State, e: Event, t: RefreshToken)
    requires HasBlockRow(s.db, t) && !HasBlockRow(Next(s, e).db, t)
    ensures t.exp <= Next(s, e).now || (e.Delete? && e.user in s.db.users && BlockRow(t, e.user) in s.db.blocked)
    ensures TableInv(s) && e.Delete? ==> BlockRow(t, e.user) in s.db.blocked && e.user in s.db.users
  {
    var b :| b in s.db.blocked && b.token == t;
    assert b !in Next(s, e).db.blocked;
    if e.Step? && e.r in s.reqs { BlocksStayAdvance(s, e.r); }
    if e.Delete? { assert b == BlockRow(t, e.user); }
  }

  lemma TableAdvance(s: State, r: ReqId)
    requires TableInv(s) && r in s.reqs
    ensures TableInv(Advance(s, r))
  {
    BlocksStayAdvance(s, r);
    forall q | q in Advance(s, r).reqs && Advance(s, r).reqs[q].BlockQuery? ensures Advance(s, r).reqs[q].at <= s.now {
      if q != r { StepTouchesOne(s, r, q); }
    }
  }

  lemma TableNext(s: State, e: Event)
    requires TableInv(s)
    ensures TableInv(Next(s, e))
  {
    if e.Step? {
      if e.r in s.reqs { TableAdvance(s, e.r); }
    } else {
      assert Next(s, e).db.blocked <= s.db.blocked;
      NowGrows(s, e);
    }
  }

  lemma {:induction false} TableRun(now: Time, rv: bool, es: seq<Event>)
    ensures TableInv(Run(Init(now, rv), es))
  {
    if es != [] {
      TableRun(now, rv, es[..|es| - 1]);
      TableNext(Run(Init(now, rv), es[..|es| - 1]), es[|es| - 1]);
    }
  }

  // The event neither lifts the block nor stores t after a gap.
  predicate Harmless(s: State, e: Event, t: RefreshToken, gap: bool) {
    !Lifts(s, e, t) && !(gap && Enters(s, Next(s, e), t))
  }

  lemma KeptOutNext(s: State, e: Event, t: RefreshToken, gap: bool)
    requires KeptOut(s, t, gap) && Harmless(s, e, t, gap)
    ensures KeptOut(Next(s, e), t, gap || Unblocked(Next(s, e), t))
  {
    NowGrows(s, e);
    if !gap && Unblocked(Next(s, e), t) { RowGoes(s, e, t); }
  }

  // Only a Step by r changes the phase of r beyond starting, minting, skipping
  // the block insert or aborting; no other event accepts a token.
  lemma OtherPhases(s: State, e: Event, r: ReqId)
    requires !(e.Step? && e.r == r) && r in Next(s, e).reqs
    ensures r in s.reqs ==>
              (Next(s, e).reqs[r] == s.reqs[r] || Next(s, e).reqs[r] == Done || ((e.Mint? || e.SkipBlock?) && e.r == r))
    ensures r !in s.reqs ==> var p := Next(s, e).reqs[r];
              p.RefreshStarted? || p.IssueReady? || p.LogoutParsed? || p.PasswordReady? || p.ResetStarted? || p.Saving?
  {
    if e.Step? && e.r in s.reqs { StepTouchesOne(s, e.r, r); }
  }

  lemma StepTouchesOne(s: State, r: ReqId, q: ReqId)
    requires r in s.reqs && r != q
    ensures q in Advance(s, r).reqs <==> q in s.reqs
    ensures q in s.reqs ==> Advance(s, r).reqs[q] == s.reqs[q]
    ensures forall t :: (q, t) in Advance(s, r).log.accepted ==> (q, t) in s.log.accepted
  {
    if Moves(s.reqs[r]) {
      MoveShape(s, r);
    } else {
      match s.reqs[r]
      case ResetTimed(k, x, at) =>
      case OldBlocked(x, n) =>
      case _ =>
    }
  }

  // One step of a request that had not passed its block query.
  lemma {:induction false} HeldAdvance(s: State, r: ReqId, t: RefreshToken, gap: bool)
    requires r in s.reqs && TableInv(s) && KeptOut(s, t, gap) && Held(s, t, gap, s.reqs[r]) && Harmless(s, Step(r), t, gap)
    ensures r in Advance(s, r).reqs && Held(Advance(s, r), t, gap, Advance(s, r).reqs[r])
    ensures (r, t) in Advance(s, r).log.accepted ==> (r, t) in s.log.accepted
  {
    match s.reqs[r]
    case BlockQuery(x, at) =>
      if x == t && HasBlockRow(s.db, t) {
        var b :| b in s.db.blocked && b.token == t;
        assert t.exp > at ==> IsBlocked(s.db, t, at);
      }
    case NotBlocked(x) =>
    case Unexpired(x) =>
    case UserFound(x) =>
    case _ => OtherAdvance(s, r, t, gap);
  }

  lemma OnlyValidationAccepts(s: State, r: ReqId)
    requires r in s.reqs && !s.reqs[r].UserFound?
    ensures Advance(s, r).log.accepted == s.log.accepted
  {
    if !s.reqs[r].OldBlocked? { OnlySwapsExchange(s, r); }
  }

  lemma OtherAdvance(s: State, r: ReqId, t: RefreshToken, gap: bool)
    requires r in s.reqs && Held(s, t, gap, s.reqs[r])
    requires var p := s.reqs[r]; !p.BlockQuery? && !p.NotBlocked? && !p.Unexpired? && !p.UserFound?
    ensures r in Advance(s, r).reqs && Held(Advance(s, r), t, gap, Advance(s, r).reqs[r])
    ensures Advance(s, r).log.accepted == s.log.accepted
  {
    OnlyValidationAccepts(s, r);
    match s.reqs[r]
    case Validated(x) =>
    case OldBlocked(x, n) =>
    case RefreshMinted(x, n) =>
    case _ =>
  }

  // A phase other requests leave alone stays held.
  lemma HeldStable(s: State, s': State, t: RefreshToken, gap: bool, p: Phase)
    requires Held(s, t, gap, p) && s.now <= s'.now && !(gap && Enters(s, s', t))
    ensures Held(s', t, gap, p)
  {
  }

  lemma HeldNext(s: State, e: Event, t: RefreshToken, gap: bool, r: ReqId)
    requires TableInv(s) && KeptOut(s, t, gap) && Harmless(s, e, t, gap) && r in Next(s, e).reqs
    requires r in s.reqs ==> Held(s, t, gap, s.reqs[r])
    ensures Held(Next(s, e), t, gap, Next(s, e).reqs[r])
    ensures (r, t) in Next(s, e).log.accepted ==> (r, t) in s.log.accepted
  {
    NowGrows(s, e);
    if e == Step(r) && r in s.reqs {
      HeldAdvance(s, r, t, gap);
    } else {
      if e.Step? && e.r in s.reqs { StepTouchesOne(s, e.r, r); }
      if e != Step(r) { OtherPhases(s, e, r); }
      if r in s.reqs { HeldStable(s, Next(s, e), t, gap, s.reqs[r]); }
    }
  }

  lemma AcceptedByRequest(s: State, e: Event, r: ReqId, t: RefreshToken)
    requires (r, t) in Next(s, e).log.accepted && (r, t) !in s.log.accepted
    ensures r in Next(s, e).reqs
  {
    if e.Step? && e.r in s.reqs && e.r != r { StepTouchesOne(s, e.r, r); }
  }

  // Only a request about to swap t exchanges it.
  lemma OnlyRotationsExchange(s: State, e: Event, t: RefreshToken)
    requires Next(s, e).log.exchanged[t] != s.log.exchanged[t]
    ensures e.Step? && e.r in s.reqs && s.reqs[e.r].OldBlocked? && s.reqs[e.r].tok == t
  {
    if e.Step? && e.r in s.reqs && !s.reqs[e.r].OldBlocked? {
      if s.reqs[e.r].UserFound? { } else { OnlySwapsExchange(s, e.r); }
    }
  }

  lemma HeldBackNext(s: State, e: Event, t: RefreshToken, gap: bool, early: set<ReqId>)
    requires TableInv(s) && KeptOut(s, t, gap) && Harmless(s, e, t, gap) && HeldBack(s, t, gap, early)
    ensures HeldBack(Next(s, e), t, gap || Unblocked(Next(s, e), t), early)
    ensures forall r :: r !in early && (r, t) in Next(s, e).log.accepted ==> (r, t) in s.log.accepted
    ensures early == {} ==> Next(s, e).log.exchanged[t] == s.log.exchanged[t]
  {
    forall r | r in Next(s, e).reqs && r !in early ensures Held(Next(s, e), t, gap, Next(s, e).reqs[r]) {
      HeldNext(s, e, t, gap, r);
    }
    forall r | r !in early && (r, t) in Next(s, e).log.accepted ensures (r, t) in s.log.accepted {
      if (r, t) !in s.log.accepted {
        AcceptedByRequest(s, e, r, t);
        HeldNext(s, e, t, gap, r);
      }
    }
    if early == {} && Next(s, e).log.exchanged[t] != s.log.exchanged[t] {
      OnlyRotationsExchange(s, e, t);
    }
  }

  // From every state with a block row for t, t is kept out and so is every
  // request that is not early.
  lemma {:induction false} BlockRun(s: State, es: seq<Event>, t: RefreshToken, early: set<ReqId>)
    requires TableInv(s) && HasBlockRow(s.db, t) && StaysShut(s, es, t) && HeldBack(s, t, false, early)
    ensures TableInv(Run(s, es)) && KeptOut(Run(s, es), t, HadGap(s, es, t)) && HeldBack(Run(s, es), t, HadGap(s, es, t), early)
    ensures forall r :: r !in early && (r, t) in Run(s, es).log.accepted ==> (r, t) in s.log.accepted
    ensures early == {} ==> Run(s, es).log.exchanged[t] == s.log.exchanged[t]
  {
    if es != [] {
      var front, e := es[..|es| - 1], es[|es| - 1];
      BlockRun(s, front, t, early);
      TableNext(Run(s, front), e);
      KeptOutNext(Run(s, front), e, t, HadGap(s, front, t));
      HeldBackNext(Run(s, front), e, t, HadGap(s, front, t), early);
    }
  }

  function EarlyReqs(s: State, t: RefreshToken): set<ReqId> {
    set r | r in s.reqs && PastBlock(s.reqs[r], t)
  }

  lemma BlockedFrom(s: State, es: seq<Event>, t: RefreshToken)
    requires TableInv(s) && HasBlockRow(s.db, t) && StaysShut(s, es, t)
    ensures forall r :: (r, t) in Run(s, es).log.accepted && (r, t) !in s.log.accepted ==> r in EarlyReqs(s, t)
    ensures forall r :: r in Run(s, es).reqs && Rotates(Run(s, es).reqs[r], t) ==> r in EarlyReqs(s, t)
    ensures EarlyReqs(s, t) == {} ==> Run(s, es).log.exchanged[t] == s.log.exchanged[t]
  {
    BlockRun(s, es, t, EarlyReqs(s, t));
  }

  // Once t has a block row, whoever asked for it, every request that has not
  // passed its block query by then is refused for good: it is never accepted and
  // never comes to rotate t. If there is no other request, t is not exchanged any
  // more. This holds in every continuation that neither lifts the block while t
  // is held nor stores t again after a gap.
  lemma {:induction false} LogoutIsFinal(now: Time, rv: bool, pre: seq<Event>, post: seq<Event>, t: RefreshToken)
    requires HasBlockRow(Run(Init(now, rv), pre).db, t) && StaysShut(Run(Init(now, rv), pre), post, t)
    ensures var s, s' := Run(Init(now, rv), pre), Run(Init(now, rv), pre + post);
            (forall r :: (r, t) in s'.log.accepted && (r, t) !in s.log.accepted ==> r in EarlyReqs(s, t)) &&
            (forall r :: r in s'.reqs && Rotates(s'.reqs[r], t) ==> r in EarlyReqs(s, t)) &&
            (EarlyReqs(s, t) == {} ==> s'.log.exchanged[t] == s.log.exchanged[t])
  {
    RunConcat(Init(now, rv), pre, post);
    TableRun(now, rv, pre);
    BlockedFrom(Run(Init(now, rv), pre), post, t);
  }

  // ---- exactly when a logged-out token works again ----

  // The event lifts the block of t, or stores t while it is alive without a row.
  predicate Reopens(s: State, e: Event, t: RefreshToken) {
    Lifts(s, e, t) || (Unblocked(s, t) && Enters(s, Next(s, e), t))
  }

  lemma EntersKeepsBlocks(s: State, e: Event, t: RefreshToken)
    requires Enters(s, Next(s, e), t)
    ensures Next(s, e).db.blocked == s.db.blocked && Next(s, e).now == s.now
  {
    if e.Step? && e.r in s.reqs && Moves(s.reqs[e.r]) { MoveShape(s, e.r); }
  }

  lemma ReopensAccepts(s: State, e: Event, t: RefreshToken)
    requires TableInv(s) && t in Next(s, e).minted && Reopens(s, e, t)
    ensures Accepts(Next(s, e), t)
  {
    if Lifts(s, e, t) {
      assert !HasBlockRow(Next(s, e).db, t);
    } else {
      EntersKeepsBlocks(s, e, t);
    }
  }

  lemma StaysRefused(s: State, e: Event, t: RefreshToken)
    requires !Reopens(s, e, t) && (Unblocked(s, t) ==> !Holds(s, t))
    ensures Unblocked(Next(s, e), t) ==> !Holds(Next(s, e), t)
  {
    NowGrows(s, e);
    if Unblocked(Next(s, e), t) && Holds(Next(s, e), t) && HasBlockRow(s.db, t) { RowGoes(s, e, t); }
  }

  lemma {:induction false} RefusedRun(s: State, es: seq<Event>, t: RefreshToken)
    requires HasBlockRow(s.db, t) && forall i :: 0 <= i < |es| ==> !Reopens(Run(s, es[..i]), es[i], t)
    ensures Unblocked(Run(s, es), t) ==> !Holds(Run(s, es), t)
  {
    if es != [] {
      var front := es[..|es| - 1];
      forall i | 0 <= i < |front| ensures !Reopens(Run(s, front[..i]), front[i], t) {
        assert front[..i] == es[..i] && front[i] == es[i];
      }
      RefusedRun(s, front, t);
      assert es[..|front|] == front;
      StaysRefused(Run(s, front), es[|front|], t);
    }
  }

  // After a logout, a new undisturbed validation would accept the token at some
  // point of a continuation if and only if some event of it deletes the user who
  // asked for the block, not being its own, while the token is held and alive, or
  // stores the token while it is alive without a block row.
  lemma {:induction false} LogoutUndoneIff(now: Time, rv: bool, pre: seq<Event>, post: seq<Event>, t: RefreshToken)
    requires HasBlockRow(Run(Init(now, rv), pre).db, t)
    ensures var s := Run(Init(now, rv), pre);
            (exists i :: 0 <= i <= |post| && Accepts(Run(s, post[..i]), t)) <==>
            (exists i :: 0 <= i < |post| && Reopens(Run(s, post[..i]), post[i], t))
  {
    var s := Run(Init(now, rv), pre);
    if i :| 0 <= i < |post| && Reopens(Run(s, post[..i]), post[i], t) {
      ReopenedAt(now, rv, pre, post, i, t);
    } else {
      forall i | 0 <= i <= |post| ensures !Accepts(Run(s, post[..i]), t) { RefusedAt(s, post, i, t); }
    }
  }

  lemma ReopenedAt(now: Time, rv: bool, pre: seq<Event>, post: seq<Event>, i: nat, t: RefreshToken)
    requires i < |post| && Reopens(Run(Run(Init(now, rv), pre), post[..i]), post[i], t)
    ensures Accepts(Run(Run(Init(now, rv), pre), post[..i + 1]), t)
  {
    var s := Run(Run(Init(now, rv), pre), post[..i]);
    assert post[..i + 1][..i] == post[..i];
    RunConcat(Init(now, rv), pre, post[..i]);
    TableRun(now, rv, pre + post[..i]);
    SafeRun(now, rv, pre + post[..i], t);
    FollowsNext(s, post[i], t);
    assert Holds(Next(s, post[i]), t);
    ReopensAccepts(s, post[i], t);
  }

  lemma RefusedAt(s: State, es: seq<Event>, i: nat, t: RefreshToken)
    requires HasBlockRow(s.db, t) && i <= |es| && forall j :: 0 <= j < |es| ==> !Reopens(Run(s, es[..j]), es[j], t)
    ensures !Accepts(Run(s, es[..i]), t)
  {
    forall j | 0 <= j < i ensures !Reopens(Run(s, es[..i][..j]), es[..i][j], t) { assert es[..i][..j] == es[..j]; }
    RefusedRun(s, es[..i], t);
    var s1 := Run(s, es[..i]);
    if HasBlockRow(s1.db, t) {
      var b :| b in s1.db.blocked && b.token == t;
      assert t.exp > s1.now ==> IsBlocked(s1.db, t, s1.now);
    }
  }
}
