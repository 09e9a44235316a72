// What a deactivated account can still do, and that a written password stays.
module AccountSafety {
  import opened Clock
  import opened Options
  import opened UserStore
  import opened SessionMachine
  import opened SessionSafety
  import opened LogoutSafety

  // ---- deactivated accounts ----

  predicate Inactive(s: State, u: UserId) {
    u in s.db.users ==> !s.db.users[u].active
  }

  // The request has re-fetched the user and found the account in order.
  predicate PastFetch(p: Phase, u: UserId) {
    (p.Refetched? || p.RefreshMinted? || p.OldBlocked?) && p.tok.user == u
  }

  // The event makes the row of u active: an admin, a save of an active row, or a
  // new row under the same id.
  predicate Activates(s: State, e: Event, u: UserId) {
    match e
    case SetStatus(v, active, _) => v == u && active
    case NewUser(v, row) => v == u && row.active
    case Step(r) => r in s.reqs && s.reqs[r].Saving? && s.reqs[r].user == u && s.reqs[r].row.active
    case _ => false
  }

  predicate StaysInactive(s: State, es: seq<Event>, u: UserId) {
    es == [] || (StaysInactive(s, es[..|es| - 1], u) && !Activates(Run(s, es[..|es| - 1]), es[|es| - 1], u))
  }

  lemma InactiveAdvance(s: State, r: ReqId, u: UserId)
    requires r in s.reqs && Inactive(s, u) && !Activates(s, Step(r), u)
    ensures Inactive(Advance(s, r), u)
  {
    if Moves(s.reqs[r]) {
      MoveShape(s, r);
    } else {
      match s.reqs[r]
      case PasswordTimed(v, at) =>
      case ResetTimed(k, x, at) =>
      case Saving(v, row) =>
      case IssueMinted(v, n) =>
      case OldBlocked(t, n) =>
      case _ =>
    }
  }

  lemma InactiveNext(s: State, e: Event, u: UserId)
    requires Inactive(s, u) && !Activates(s, e, u)
    ensures Inactive(Next(s, e), u)
  {
    if e.Step? {
      if e.r in s.reqs { InactiveAdvance(s, e.r, u); }
    }
  }

  lemma FetchAdvance(s: State, r: ReqId, u: UserId)
    requires r in s.reqs && Inactive(s, u) && !PastFetch(s.reqs[r], u)
    ensures r in Advance(s, r).reqs ==> !PastFetch(Advance(s, r).reqs[r], u)
  {
    match s.reqs[r]
    case Validated(t) =>
    case RefreshMinted(t, n) =>
    case OldBlocked(t, n) =>
    case _ =>
  }

  lemma FetchNext(s: State, e: Event, u: UserId, q: ReqId)
    requires Inactive(s, u) && q in Next(s, e).reqs && (q in s.reqs ==> !PastFetch(s.reqs[q], u))
    ensures !PastFetch(Next(s, e).reqs[q], u)
  {
    if e == Step(q) {
      if q in s.reqs { FetchAdvance(s, q, u); }
    } else {
      OtherPhases(s, e, q);
    }
  }

  lemma {:induction false} InactiveRun(s: State, es: seq<Event>, u: UserId)
    requires Inactive(s, u) && StaysInactive(s, es, u)
    ensures Inactive(Run(s, es), u)
    ensures forall r :: r in Run(s, es).reqs && PastFetch(Run(s, es).reqs[r], u) ==> r in s.reqs && PastFetch(s.reqs[r], u)
  {
    if es != [] {
      var s1, e := Run(s, es[..|es| - 1]), es[|es| - 1];
      InactiveRun(s, es[..|es| - 1], u);
      InactiveNext(s1, e, u);
      forall q | q in Next(s1, e).reqs && PastFetch(Next(s1, e).reqs[q], u) ensures q in s1.reqs && PastFetch(s1.reqs[q], u) {
        if !(q in s1.reqs && PastFetch(s1.reqs[q], u)) { FetchNext(s1, e, u, q); }
      }
    }
  }

  // After an admin deactivates a user, and until something activates the row
  // again, no refresh of that user gets as far as minting, unless it had already
  // re-fetched the user before.
  lemma {:induction false} DeactivatedCannotRefresh(s: State, u: UserId, clear: bool, post: seq<Event>)
    requires StaysInactive(Next(s, SetStatus(u, false, clear)), post, u)
    ensures var s' := Run(Next(s, SetStatus(u, false, clear)), post);
            (u in s'.db.users ==> !s'.db.users[u].active) &&
            forall r :: r in s'.reqs && (s'.reqs[r].Refetched? || s'.reqs[r].RefreshMinted? || s'.reqs[r].OldBlocked?) && s'.reqs[r].tok.user == u ==>
              r in s.reqs && (s.reqs[r].Refetched? || s.reqs[r].RefreshMinted? || s.reqs[r].OldBlocked?) && s.reqs[r].tok.user == u
  {
    InactiveRun(Next(s, SetStatus(u, false, clear)), post, u);
  }

  // ---- accounts with a password ----

  predicate PasswordSet(s: State, u: UserId) {
    u in s.db.users && s.db.users[u].hasPassword
  }

  // The event takes the password of u away: a deletion, or a save of a row without.
  predicate DropsPassword(s: State, e: Event, u: UserId) {
    match e
    case Delete(v) => v == u
    case Step(r) => r in s.reqs && s.reqs[r].Saving? && s.reqs[r].user == u && !s.reqs[r].row.hasPassword
    case _ => false
  }

  predicate KeepsPassword(s: State, es: seq<Event>, u: UserId) {
    es == [] || (KeepsPassword(s, es[..|es| - 1], u) && !DropsPassword(Run(s, es[..|es| - 1]), es[|es| - 1], u))
  }

  lemma PasswordAdvance(s: State, r: ReqId, u: UserId)
    requires r in s.reqs && PasswordSet(s, u) && !DropsPassword(s, Step(r), u)
    ensures PasswordSet(Advance(s, r), u)
  {
    if Moves(s.reqs[r]) {
      MoveShape(s, r);
    } else {
      match s.reqs[r]
      case PasswordTimed(v, at) =>
      case ResetTimed(k, x, at) =>
      case Saving(v, row) =>
      case IssueMinted(v, n) =>
      case OldBlocked(t, n) =>
      case _ =>
    }
  }

  lemma {:induction false} PasswordRun(s: State, es: seq<Event>, u: UserId)
    requires PasswordSet(s, u) && KeepsPassword(s, es, u)
    ensures PasswordSet(Run(s, es), u)
  {
    if es != [] {
      var s1, e := Run(s, es[..|es| - 1]), es[|es| - 1];
      PasswordRun(s, es[..|es| - 1], u);
      if e.Step? {
        if e.r in s1.reqs { PasswordAdvance(s1, e.r, u); }
      }
    }
  }

  // Once a password of u was written, by a change or by a reset that committed, the
  // row has a password in every continuation that neither deletes it nor saves a
  // row without one.
  lemma {:induction false} WrittenPasswordStays(s: State, r: ReqId, post: seq<Event>, u: UserId)
    requires r in s.reqs && u in s.db.users
    requires (s.reqs[r].PasswordTimed? && s.reqs[r].user == u) ||
             (s.reqs[r].ResetTimed? && s.reqs[r].key.user == u && s.db.users[u].passwordChangedAt == s.reqs[r].expected)
    requires KeepsPassword(Next(s, Step(r)), post, u)
    ensures var s' := Run(Next(s, Step(r)), post); u in s'.db.users && s'.db.users[u].hasPassword
  {
    WriteSets(s, r, u);
    PasswordRun(Next(s, Step(r)), post, u);
  }

  lemma WriteSets(s: State, r: ReqId, u: UserId)
    requires r in s.reqs && u in s.db.users
    requires (s.reqs[r].PasswordTimed? && s.reqs[r].user == u) ||
             (s.reqs[r].ResetTimed? && s.reqs[r].key.user == u && s.db.users[u].passwordChangedAt == s.reqs[r].expected)
    ensures PasswordSet(Next(s, Step(r)), u)
  {
  }

  // ---- status changes ----

  // A status change sets the status, and takes the stored token exactly when it is
  // asked to clear: the tokens good before it stay good, except those of that user.
  lemma {:induction false} StatusChangeAlone(s: State, u: UserId, active: bool, clear: bool, t: RefreshToken)
    ensures var s' := Next(s, SetStatus(u, active, clear));
            (Accepts(s', t) <==> Accepts(s, t) && !(clear && t.user == u)) &&
            s'.db.users == (if u in s.db.users
                            then s.db.users[u := s.db.users[u].(active := active, refresh := if clear then None else s.db.users[u].refresh)]
                            else s.db.users)
  {
    assert Next(s, SetStatus(u, active, clear)).db.blocked == s.db.blocked;
  }

  // A new row has neither a token nor a stamp, so no token is good for it, not even
  // one from an earlier row of the same id; rows that exist are not replaced.
  lemma {:induction false} NewUserAlone(s: State, u: UserId, row: UserRow, t: RefreshToken)
    ensures var s' := Next(s, NewUser(u, row));
            s'.db.users == (if u in s.db.users then s.db.users else s.db.users[u := row.(refresh := None, passwordChangedAt := None)]) &&
            (u !in s.db.users && t.user == u ==> !Accepts(s', t)) && (t.user != u ==> (Accepts(s', t) <==> Accepts(s, t)))
  {
    assert Next(s, NewUser(u, row)).db.blocked == s.db.blocked;
  }

  // A cleanup removes the block rows that had expired at its clock reading.
  lemma {:induction false} CleanupAlone(s: State, at: Time, t: RefreshToken)
    requires at <= s.now
    ensures var s' := Next(s, Cleanup(at));
            s'.db.users == s.db.users && (Accepts(s', t) <==> Accepts(s, t)) &&
            forall b :: b in s'.db.blocked <==> b in s.db.blocked && at <= b.token.exp
  {
    CleanupInvisible(s.db, at, t, s.now);
  }

  // A full-record save that nothing interrupts writes what was edited, and keeps the
  // token and the stamp it read.
  lemma {:induction false} SaveAlone(s: State, r: ReqId, u: UserId, edited: UserRow)
    requires r !in s.reqs && u in s.db.users
    ensures var s' := Next(Next(s, BeginSave(r, u, edited)), Step(r));
            s'.db.blocked == s.db.blocked &&
            s'.db.users == s.db.users[u :=
              edited.(refresh := s.db.users[u].refresh, passwordChangedAt := s.db.users[u].passwordChangedAt)]
  {
    assert Next(s, BeginSave(r, u, edited)).reqs[r] ==
           Saving(u, edited.(refresh := s.db.users[u].refresh, passwordChangedAt := s.db.users[u].passwordChangedAt));
  }
}
