// Password-reset tokens: when one is used at most once, what one commit rules out
// for every other service call that read the same stamp, and which events make a
// used token work again.
module ResetTokens {
  import opened Clock
  import opened Options
  import opened UserStore
  import opened SessionMachine
  import opened SessionSafety
  import opened LogoutSafety
  import opened SessionWitnesses

  predicate HasStamp(db: Db, u: UserId, x: Option<Time>) {
    u in db.users && db.users[u].passwordChangedAt == x
  }

  // The stamp check of the handler would pass.
  predicate StampPasses(db: Db, k: ResetToken) {
    k.user in db.users && PassesStampCheck(db.users[k.user].passwordChangedAt, k)
  }

  // What the event writes into password_changed_at of u, if it writes the column:
  // a password change, a reset that commits, a full-record save, or a new row.
  function StampWritten(s: State, e: Event, u: UserId): Option<Option<Time>> {
    if e.NewUser? && e.user == u && u !in s.db.users then Some(None)
    else if !(e.Step? && e.r in s.reqs) then None
    else match s.reqs[e.r]
      case PasswordTimed(v, at) => if v == u && u in s.db.users then Some(Some(at)) else None
      case ResetTimed(k, x, at) => if k.user == u && CanReset(s.db, u, x) then Some(Some(at)) else None
      case Saving(v, row) => if v == u then Some(row.passwordChangedAt) else None
      case _ => None
  }

  // The event is a reset commit.
  predicate Commits(s: State, e: Event) {
    e.Step? && e.r in s.reqs && s.reqs[e.r].ResetTimed? && CanReset(s.db, s.reqs[e.r].key.user, s.reqs[e.r].expected)
  }

  // Once k is used, the event leaves a stamp that k's check passes.
  predicate Reopens(s: State, e: Event, k: ResetToken) {
    (s.log.resetUses[k] > 0 || (Commits(s, e) && s.reqs[e.r].key == k)) &&
    StampWritten(s, e, k.user).Some? && PassesStampCheck(StampWritten(s, e, k.user).value, k)
  }

  predicate Rereads(s: State, e: Event, k: ResetToken) {
    e.Step? && e.r in s.reqs && s.reqs[e.r] == ResetChecked(k) && k.user in s.db.users
  }

  // The service re-reads a stamp the handler's check would refuse.
  predicate RereadsStale(s: State, e: Event, k: ResetToken) {
    Rereads(s, e, k) && !StampPasses(s.db, k)
  }

  // The two ways single use of k can slip.
  predicate Slips(s: State, e: Event, k: ResetToken) {
    Reopens(s, e, k) || RereadsStale(s, e, k)
  }

  function SlipCount(s: State, es: seq<Event>, k: ResetToken): nat {
    if es == [] then 0
    else
      var front := es[..|es| - 1];
      SlipCount(s, front, k) + (if Slips(Run(s, front), es[|es| - 1], k) then 1 else 0)
  }

  // A request past the re-read that expects a stamp the check would refuse.
  predicate ExpectsStale(p: Phase, k: ResetToken) {
    (p.ResetRead? || p.ResetTimed?) && p.key == k && !PassesStampCheck(p.expected, k)
  }

  function StaleReqs(s: State, k: ResetToken): set<ReqId> {
    set r | r in s.reqs && ExpectsStale(s.reqs[r], k)
  }

  // Every use of k after the first was paid for by a slip; so is a stamp that
  // passes again, and so is every request that expects a stale stamp.
  ghost predicate ResetInv(s: State, k: ResetToken, n: nat) {
    |StaleReqs(s, k)| <= n &&
    (s.log.resetUses[k] > 0 ==>
       s.log.resetUses[k] + (if StampPasses(s.db, k) then 1 else 0) + |StaleReqs(s, k)| <= 1 + n)
  }

  lemma StampAdvance(s: State, r: ReqId, u: UserId)
    requires r in s.reqs && u in Advance(s, r).db.users
    ensures match StampWritten(s, Step(r), u)
            case Some(x) => HasStamp(Advance(s, r).db, u, x)
            case None => u in s.db.users && HasStamp(Advance(s, r).db, u, s.db.users[u].passwordChangedAt)
  {
    if Moves(s.reqs[r]) {
      MoveShape(s, r);
    } else {
      match s.reqs[r]
      case PasswordTimed(v, at) =>
      case ResetTimed(k, x, at) =>
      case Saving(v, row) =>
      case OldBlocked(t, n) =>
      case IssueMinted(v, n) =>
      case _ =>
    }
  }

  // password_changed_at changes only as StampWritten says.
  lemma StampNext(s: State, e: Event, u: UserId)
    ensures u in Next(s, e).db.users ==>
              match StampWritten(s, e, u)
              case Some(x) => HasStamp(Next(s, e).db, u, x)
              case None => u in s.db.users && HasStamp(Next(s, e).db, u, s.db.users[u].passwordChangedAt)
  {
    if e.Step? {
      if e.r in s.reqs {
        if u in Advance(s, e.r).db.users { StampAdvance(s, e.r, u); }
      }
    }
  }

  // Only the last step of a reset logs a use or a commit.
  lemma OnlyResetsLog(s: State, r: ReqId)
    requires r in s.reqs && !s.reqs[r].ResetTimed?
    ensures Advance(s, r).log.resetUses == s.log.resetUses && Advance(s, r).log.commits == s.log.commits
  {
    if Moves(s.reqs[r]) {
      MoveShape(s, r);
    } else {
      match s.reqs[r]
      case PasswordTimed(v, at) =>
      case Saving(v, row) =>
      case OldBlocked(t, n) =>
      case IssueMinted(v, n) =>
      case _ =>
    }
  }

  lemma ResetLogs(s: State, r: ReqId)
    requires r in s.reqs && s.reqs[r].ResetTimed?
    ensures var ResetTimed(k, x, _) := s.reqs[r];
            Advance(s, r).log.resetUses == s.log.resetUses + (if CanReset(s.db, k.user, x) then multiset{k} else multiset{}) &&
            Advance(s, r).log.commits == s.log.commits + (if CanReset(s.db, k.user, x) then multiset{(k.user, x)} else multiset{})
  {
  }

  lemma LogsNext(s: State, e: Event)
    ensures Next(s, e).log.resetUses == s.log.resetUses + (if Commits(s, e) then multiset{s.reqs[e.r].key} else multiset{})
    ensures Next(s, e).log.commits ==
            s.log.commits + (if Commits(s, e) then multiset{(s.reqs[e.r].key.user, s.reqs[e.r].expected)} else multiset{})
  {
    if e.Step? && e.r in s.reqs {
      if s.reqs[e.r].ResetTimed? { ResetLogs(s, e.r); } else { OnlyResetsLog(s, e.r); }
    }
  }

  lemma StaleAdvance(s: State, r: ReqId, k: ResetToken)
    requires r in s.reqs
    ensures r in Advance(s, r).reqs
    ensures ExpectsStale(Advance(s, r).reqs[r], k) ==>
              RereadsStale(s, Step(r), k) || (ExpectsStale(s.reqs[r], k) && !s.reqs[r].ResetTimed?)
  {
    match s.reqs[r]
    case ResetChecked(j) =>
    case ResetRead(j, x) =>
    case ResetTimed(j, x, at) =>
    case _ => assert var p := Advance(s, r).reqs[r]; !p.ResetRead? && !p.ResetTimed?;
  }

  // Other requests keep their phase; new ones start before the check.
  lemma StaleNext(s: State, e: Event, k: ResetToken, q: ReqId)
    requires q in StaleReqs(Next(s, e), k)
    ensures q in StaleReqs(s, k) || (RereadsStale(s, e, k) && q == e.r)
    ensures Commits(s, e) ==> q != e.r
  {
    if e == Step(q) {
      if q in s.reqs { StaleAdvance(s, q, k); }
    } else {
      OtherPhases(s, e, q);
    }
  }

  lemma FewerElements(a: set<ReqId>, b: set<ReqId>)
    requires a <= b
    ensures |a| <= |b|
  {
    assert b == a + (b - a);
  }

  // The event adds at most the request that re-read a stale stamp, and a commit
  // of k against a stale stamp uses up the request that made it.
  lemma StaleCount(s: State, e: Event, k: ResetToken)
    ensures var a, b := StaleReqs(Next(s, e), k), StaleReqs(s, k);
            |a| <= |b| + (if RereadsStale(s, e, k) then 1 else 0) &&
            (Commits(s, e) && s.reqs[e.r].key == k && !StampPasses(s.db, k) ==> |a| + 1 <= |b|)
  {
    var a, b := StaleReqs(Next(s, e), k), StaleReqs(s, k);
    forall q | q in a ensures (q in b || (RereadsStale(s, e, k) && q == e.r)) && (Commits(s, e) ==> q != e.r) {
      StaleNext(s, e, k, q);
    }
    if RereadsStale(s, e, k) {
      FewerElements(a, b + {e.r});
    } else if Commits(s, e) && s.reqs[e.r].key == k && !StampPasses(s.db, k) {
      assert e.r in b;
      FewerElements(a, b - {e.r});
    } else {
      FewerElements(a, b);
    }
  }

  lemma UseNext(s: State, e: Event, k: ResetToken)
    ensures Next(s, e).log.resetUses[k] == s.log.resetUses[k] + (if Commits(s, e) && s.reqs[e.r].key == k then 1 else 0)
  {
    LogsNext(s, e);
  }

  // After an event the stamp check of a used token passes because the event
  // reopened it, or because it passed before and was not written.
  lemma PassesNext(s: State, e: Event, k: ResetToken)
    requires Next(s, e).log.resetUses[k] > 0 && StampPasses(Next(s, e).db, k)
    ensures Reopens(s, e, k) || (StampPasses(s.db, k) && StampWritten(s, e, k.user).None?)
  {
    UseNext(s, e, k);
    StampNext(s, e, k.user);
  }

  lemma {:induction false} ResetNext(s: State, e: Event, k: ResetToken, n: nat)
    requires ResetInv(s, k, n)
    ensures ResetInv(Next(s, e), k, n + (if Slips(s, e, k) then 1 else 0))
  {
    UseNext(s, e, k);
    StaleCount(s, e, k);
    if Next(s, e).log.resetUses[k] > 0 {
      StampNext(s, e, k.user);
      if StampPasses(Next(s, e).db, k) { PassesNext(s, e, k); }
    }
  }

  lemma {:induction false} ResetRun(now: Time, rv: bool, es: seq<Event>, k: ResetToken)
    ensures ResetInv(Run(Init(now, rv), es), k, SlipCount(Init(now, rv), es, k))
  {
    var front := if es == [] then [] else es[..|es| - 1];
    if es == [] {
      assert StaleReqs(Init(now, rv), k) == {};
    } else {
      ResetRun(now, rv, front, k);
      ResetNext(Run(Init(now, rv), front), es[|es| - 1], k, SlipCount(Init(now, rv), front, k));
    }
  }

  // In every run a reset token is used at most once, and once more for every slip:
  // a re-read of a stamp the check would refuse, or a write that reopens it.
  lemma {:induction false} ResetTokenSingleUse(now: Time, rv: bool, es: seq<Event>, k: ResetToken)
    ensures Run(Init(now, rv), es).log.resetUses[k] <= 1 + SlipCount(Init(now, rv), es, k)
  {
    ResetRun(now, rv, es, k);
  }

  // After a first use without slips, an event lets one more undisturbed request
  // use the token if and only if it reopens the token and the request would still
  // find it unexpired, with the right e-mail and a provider that has passwords.
  lemma {:induction false} ReuseAfterEventIff(now: Time, rv: bool, es: seq<Event>, e: Event, r: ReqId, k: ResetToken)
    requires SlipCount(Init(now, rv), es, k) == 0 && Run(Init(now, rv), es).log.resetUses[k] == 1
    requires r !in Next(Run(Init(now, rv), es), e).reqs
    ensures var s := Run(Init(now, rv), es);
            var s1 := Next(s, e);
            Run(s1, CheckEvents(r, k) + Steps(r, 3)).log.resetUses[k] ==
              (if Reopens(s, e, k) && s1.now < k.exp && MayReset(s1.db, k) then 2 else 1)
  {
    var s := Run(Init(now, rv), es);
    ResetRun(now, rv, es, k);
    StaleCount(s, e, k);
    UseNext(s, e, k);
    StampNext(s, e, k.user);
    ResetAlone(Next(s, e), r, k);
  }

  // ---- service calls that read the same stamp ----

  // Once some commit expected x, the event puts x back as the stamp of u.
  predicate Restamps(s: State, e: Event, u: UserId, x: Option<Time>) {
    (s.log.commits[(u, x)] > 0 || (Commits(s, e) && s.reqs[e.r].key.user == u && s.reqs[e.r].expected == x)) &&
    StampWritten(s, e, u) == Some(x)
  }

  function RestampCount(s: State, es: seq<Event>, u: UserId, x: Option<Time>): nat {
    if es == [] then 0
    else
      var front := es[..|es| - 1];
      RestampCount(s, front, u, x) + (if Restamps(Run(s, front), es[|es| - 1], u, x) then 1 else 0)
  }

  // Every commit that expected x used up one moment at which the stamp became x.
  ghost predicate CommitInv(s: State, u: UserId, x: Option<Time>, n: nat) {
    (s.log.commits[(u, x)] > 0 ==>
       s.log.commits[(u, x)] + (if HasStamp(s.db, u, x) then 1 else 0) <= 1 + n)
  }

  lemma CommitNext(s: State, e: Event, u: UserId, x: Option<Time>, n: nat)
    requires CommitInv(s, u, x, n)
    ensures CommitInv(Next(s, e), u, x, n + (if Restamps(s, e, u, x) then 1 else 0))
  {
    LogsNext(s, e);
    StampNext(s, e, u);
  }

  lemma {:induction false} CommitRun(now: Time, rv: bool, es: seq<Event>, u: UserId, x: Option<Time>)
    ensures CommitInv(Run(Init(now, rv), es), u, x, RestampCount(Init(now, rv), es, u, x))
  {
    if es != [] {
      CommitRun(now, rv, es[..|es| - 1], u, x);
      var front := es[..|es| - 1];
      CommitNext(Run(Init(now, rv), front), es[|es| - 1], u, x, RestampCount(Init(now, rv), front, u, x));
    }
  }

  // Of all service calls that read the same stamp, whatever token they carry, at
  // most one commits, and one more for each time the stamp comes back after that.
  lemma {:induction false} SameStampCommitsOnce(now: Time, rv: bool, es: seq<Event>, u: UserId, x: Option<Time>)
    ensures Run(Init(now, rv), es).log.commits[(u, x)] <= 1 + RestampCount(Init(now, rv), es, u, x)
  {
    CommitRun(now, rv, es, u, x);
  }

  // ---- undisturbed resets, and the runs that reach the bounds ----

  predicate ResetWouldPass(s: State, k: ResetToken) {
    s.now < k.exp && ResetAllowed(s.db, k)
  }

  function CheckEvents(r: ReqId, k: ResetToken): seq<Event> { [BeginReset(r, k)] + Steps(r, 2) }

  lemma CheckAlone(s: State, r: ReqId, k: ResetToken)
    requires r !in s.reqs
    ensures Run(s, CheckEvents(r, k)) ==
            Goto(s, r, if ResetWouldPass(s, k) then ResetChecked(k) else Done)
  {
    var s1 := Goto(s, r, ResetStarted(k));
    RunCons(s, BeginReset(r, k), Steps(r, 2));
    RunSteps(s1, r, 2);
    ExpiryStep(s, r, k);
    if s.now < k.exp {
      StampCheckStep(s, r, k);
    } else {
      DoneStays(Goto(s, r, Done), r, 1);
    }
  }

  lemma ExpiryStep(s: State, r: ReqId, k: ResetToken)
    ensures Next(Goto(s, r, ResetStarted(k)), Step(r)) == Goto(s, r, if s.now < k.exp then ResetUnexpired(k) else Done)
  {
    GotoTwice(s, r, ResetStarted(k), ResetUnexpired(k));
    GotoTwice(s, r, ResetStarted(k), Done);
  }

  lemma StampCheckStep(s: State, r: ReqId, k: ResetToken)
    requires s.now < k.exp
    ensures Run(Goto(s, r, ResetUnexpired(k)), Steps(r, 1)) ==
            Goto(s, r, if ResetWouldPass(s, k) then ResetChecked(k) else Done)
  {
    LastStep(Goto(s, r, ResetUnexpired(k)), r);
    GotoTwice(s, r, ResetUnexpired(k), Done);
    if ResetWouldPass(s, k) {
      GotoTwice(s, r, ResetUnexpired(k), ResetChecked(k));
    }
  }

  // The state after a reset committed at the current instant.
  function Committed(s: State, r: ReqId, k: ResetToken, x: Option<Time>): State {
    NoteReset(Write(Goto(s, r, Done), k.user, SetPassword(s.db, k.user, s.now)), k, x)
  }

  lemma CommitStep(s: State, r: ReqId, k: ResetToken, x: Option<Time>)
    requires CanReset(s.db, k.user, x)
    ensures Next(Goto(s, r, ResetTimed(k, x, s.now)), Step(r)) == Committed(s, r, k, x)
  {
    GotoTwice(s, r, ResetTimed(k, x, s.now), Done);
  }

  lemma TimeAndCommit(s: State, r: ReqId, k: ResetToken, x: Option<Time>)
    requires CanReset(s.db, k.user, x)
    ensures Run(Goto(s, r, ResetRead(k, x)), Steps(r, 2)) == Committed(s, r, k, x)
  {
    var s1 := Goto(s, r, ResetRead(k, x));
    RunSteps(s1, r, 2);
    GotoTwice(s, r, ResetRead(k, x), ResetTimed(k, x, s.now));
    LastStep(Goto(s, r, ResetTimed(k, x, s.now)), r);
    CommitStep(s, r, k, x);
  }

  lemma ReadStep(s: State, r: ReqId, k: ResetToken)
    requires r in s.reqs && s.reqs[r].ResetChecked? && s.reqs[r].key == k && k.user in s.db.users
    ensures Next(s, Step(r)) == Goto(s, r, ResetRead(k, s.db.users[k.user].passwordChangedAt))
  {
  }

  // Past the check, a reset nothing interferes with always commits.
  lemma CommitAlone(s: State, r: ReqId, k: ResetToken)
    requires r in s.reqs && s.reqs[r].ResetChecked? && s.reqs[r].key == k && k.user in s.db.users
    ensures Run(s, Steps(r, 3)) == Committed(s, r, k, s.db.users[k.user].passwordChangedAt)
  {
    RunSteps(s, r, 3);
    ReadStep(s, r, k);
    TimeAndCommit(s, r, k, s.db.users[k.user].passwordChangedAt);
  }

  // One reset from request to response, undisturbed.
  lemma ResetAlone(s: State, r: ReqId, k: ResetToken)
    requires r !in s.reqs
    ensures Run(s, CheckEvents(r, k) + Steps(r, 3)) ==
            if ResetWouldPass(s, k) then Committed(s, r, k, s.db.users[k.user].passwordChangedAt) else Goto(s, r, Done)
  {
    RunConcat(s, CheckEvents(r, k), Steps(r, 3));
    CheckAlone(s, r, k);
    if ResetWouldPass(s, k) {
      var p := ResetChecked(k);
      CommitAlone(Goto(s, r, p), r, k);
      GotoTwice(s, r, p, Done);
    } else {
      DoneStays(Goto(s, r, Done), r, 3);
    }
  }

  lemma ResetWrittenOut(s: State, k: ResetToken)
    ensures ResetWouldPass(s, k) <==>
            s.now < k.exp && k.user in s.db.users &&
            var row := s.db.users[k.user];
            (k.email == "" || k.email == row.email) && (row.provider == Local || row.provider == Passkey) &&
            (row.passwordChangedAt.None? || (k.stamp.Some? && row.passwordChangedAt.value / 1_000_000_000 <= k.stamp.value))
  {
  }

  // The same with the row written out: which resets pass, and what they write.
  // Otherwise the tables stay as they were.
  lemma {:induction false} ResetHandlerAlone(s: State, r: ReqId, k: ResetToken)
    requires r !in s.reqs
    ensures var s' := Run(s, CheckEvents(r, k) + Steps(r, 3));
            if s.now < k.exp && k.user in s.db.users &&
               (k.email == "" || k.email == s.db.users[k.user].email) &&
               (s.db.users[k.user].provider == Local || s.db.users[k.user].provider == Passkey) &&
               (s.db.users[k.user].passwordChangedAt.None? ||
                (k.stamp.Some? && s.db.users[k.user].passwordChangedAt.value / 1_000_000_000 <= k.stamp.value))
            then
              s'.log.resetUses == s.log.resetUses + multiset{k} && s'.db.blocked == s.db.blocked &&
              s'.db.users == s.db.users[k.user := s.db.users[k.user].(hasPassword := true, refresh := None, passwordChangedAt := Some(s.now))]
            else s'.log.resetUses == s.log.resetUses && s'.db == s.db
  {
    ResetWrittenOut(s, k);
    ResetAlone(s, r, k);
  }

  // In sequence, a token that was just used works again exactly when it is not
  // expired and the commit landed no later than the second of its stamp.
  lemma ReuseInSequenceIff(s: State, a: ReqId, b: ReqId, k: ResetToken, d: nat)
    requires ResetWouldPass(s, k) && a !in s.reqs && b !in s.reqs && a != b
    ensures var s2 := Run(s, CheckEvents(a, k) + Steps(a, 3) + [Tick(d)] + (CheckEvents(b, k) + Steps(b, 3)));
            s2.log.resetUses[k] == s.log.resetUses[k] +
              (if s.now + d < k.exp && k.stamp.Some? && Unix(s.now) <= k.stamp.value then 2 else 1)
  {
    var s1 := Committed(s, a, k, s.db.users[k.user].passwordChangedAt);
    RunThree(s, CheckEvents(a, k) + Steps(a, 3), [Tick(d)], CheckEvents(b, k) + Steps(b, 3));
    ResetAlone(s, a, k);
    RunOne(s1, Tick(d));
    ResetAlone(Next(s1, Tick(d)), b, k);
    CommittedLogs(s, a, k, d);
  }

  // The state after a first use and d more nanoseconds.
  lemma CommittedLogs(s: State, r: ReqId, k: ResetToken, d: nat)
    requires ResetWouldPass(s, k)
    ensures var s' := Next(Committed(s, r, k, s.db.users[k.user].passwordChangedAt), Tick(d));
            s'.log.resetUses == s.log.resetUses + multiset{k} && s'.reqs == s.reqs[r := Done] &&
            (ResetWouldPass(s', k) <==> s.now + d < k.exp && k.stamp.Some? && Unix(s.now) <= k.stamp.value)
  {
  }

  // Two resets with one token that both passed the check commit twice if the
  // second re-reads the user after the first commit.
  lemma {:induction false} OverlappingResetsBothCommit(s: State, a: ReqId, b: ReqId, k: ResetToken)
    requires ResetWouldPass(s, k) && a !in s.reqs && b !in s.reqs && a != b
    ensures Run(s, CheckEvents(a, k) + CheckEvents(b, k) + Steps(a, 3) + Steps(b, 3)).log.resetUses[k] == s.log.resetUses[k] + 2
  {
    var p := ResetChecked(k);
    RunConcat(s, CheckEvents(a, k) + CheckEvents(b, k) + Steps(a, 3), Steps(b, 3));
    RunConcat(s, CheckEvents(a, k) + CheckEvents(b, k), Steps(a, 3));
    RunConcat(s, CheckEvents(a, k), CheckEvents(b, k));
    CheckAlone(s, a, k);
    CheckAlone(Goto(s, a, p), b, k);
    var s1 := Goto(Goto(s, a, p), b, p);
    CommitAlone(s1, a, k);
    CommitAlone(Committed(s1, a, k, s.db.users[k.user].passwordChangedAt), b, k);
  }

  // Both requests passed the check, and b has re-read the user.
  function BReread(s: State, a: ReqId, b: ReqId, k: ResetToken, x: Option<Time>): State {
    Goto(Goto(Goto(s, a, ResetChecked(k)), b, ResetChecked(k)), b, ResetRead(k, x))
  }

  lemma RereadRun(s: State, a: ReqId, b: ReqId, k: ResetToken)
    requires ResetWouldPass(s, k) && a !in s.reqs && b !in s.reqs && a != b
    ensures Run(s, CheckEvents(a, k) + CheckEvents(b, k) + Steps(b, 1)) == BReread(s, a, b, k, s.db.users[k.user].passwordChangedAt)
  {
    var p := ResetChecked(k);
    RunThree(s, CheckEvents(a, k), CheckEvents(b, k), Steps(b, 1));
    CheckAlone(s, a, k);
    CheckAlone(Goto(s, a, p), b, k);
    LastStep(Goto(Goto(s, a, p), b, p), b);
    ReadStep(Goto(Goto(s, a, p), b, p), b, k);
  }

  // If it re-reads before the first commit, its own commit fails, unless the
  // first commit wrote the very stamp both had read; then both commits expected
  // that stamp.
  lemma {:induction false} EarlyReadLosesTheRace(s: State, a: ReqId, b: ReqId, k: ResetToken)
    requires ResetWouldPass(s, k) && a !in s.reqs && b !in s.reqs && a != b
    ensures var s2 := Run(s, CheckEvents(a, k) + CheckEvents(b, k) + Steps(b, 1) + Steps(a, 3) + Steps(b, 2));
            var x := s.db.users[k.user].passwordChangedAt;
            s2.log.resetUses[k] == s.log.resetUses[k] + (if x == Some(s.now) then 2 else 1) &&
            s2.log.commits[(k.user, x)] == s.log.commits[(k.user, x)] + (if x == Some(s.now) then 2 else 1)
  {
    var x := s.db.users[k.user].passwordChangedAt;
    var s1 := BReread(s, a, b, k, x);
    RunThree(s, CheckEvents(a, k) + CheckEvents(b, k) + Steps(b, 1), Steps(a, 3), Steps(b, 2));
    RereadRun(s, a, b, k);
    CommitAlone(s1, a, k);
    LateCommit(Committed(s1, a, k, x), b, k, x);
  }

  lemma LateCommit(s: State, r: ReqId, k: ResetToken, x: Option<Time>)
    requires r in s.reqs && s.reqs[r] == ResetRead(k, x)
    ensures Run(s, Steps(r, 2)).log.resetUses[k] == s.log.resetUses[k] + (if CanReset(s.db, k.user, x) then 1 else 0)
    ensures Run(s, Steps(r, 2)).log.commits[(k.user, x)] == s.log.commits[(k.user, x)] + (if CanReset(s.db, k.user, x) then 1 else 0)
  {
    var s1 := Goto(s, r, ResetTimed(k, x, s.now));
    RunSteps(s, r, 2);
    assert Next(s, Step(r)) == s1;
    LastStep(s1, r);
    LogsNext(s1, Step(r));
  }

  // When a reset token minted at this instant expires: after the configured hours,
  // or one, cut down to a whole second.
  function ResetExpiry(now: Time, ttlHours: int): Time {
    (now + (if ttlHours > 0 then ttlHours else 1) * 3_600_000_000_000) / 1_000_000_000 * 1_000_000_000
  }

  lemma MintedToken(s: State, u: UserId, id: nat, ttlHours: int)
    requires u in s.db.users
    ensures var k := GenerateResetToken(s, u, id, ttlHours);
            var c := s.db.users[u].passwordChangedAt;
            k.user == u && k.email == s.db.users[u].email && k.exp == ResetExpiry(s.now, ttlHours) &&
            k.stamp == if c.None? then None else Some(c.value / 1_000_000_000)
  {
  }

  lemma MintedPasses(s: State, u: UserId, k: ResetToken, d: nat)
    requires u in s.db.users && k.user == u && k.email == s.db.users[u].email
    requires k.stamp == var c := s.db.users[u].passwordChangedAt; if c.None? then None else Some(c.value / 1_000_000_000)
    ensures ResetWouldPass(s.(now := s.now + d), k) <==>
            (s.db.users[u].provider == Local || s.db.users[u].provider == Passkey) && s.now + d < k.exp
  {
  }

  lemma UsesAlone(s: State, r: ReqId, k: ResetToken)
    requires r !in s.reqs
    ensures Run(s, CheckEvents(r, k) + Steps(r, 3)).log.resetUses ==
            s.log.resetUses + if ResetWouldPass(s, k) then multiset{k} else multiset{}
  {
    ResetAlone(s, r, k);
  }

  // A token the server mints for a password account works undisturbed until then.
  lemma MintedTokenWorks(s: State, r: ReqId, u: UserId, id: nat, ttlHours: int, d: nat)
    requires u in s.db.users && r !in s.reqs
    ensures var k := GenerateResetToken(s, u, id, ttlHours);
            Run(s, [Tick(d)] + (CheckEvents(r, k) + Steps(r, 3))).log.resetUses == s.log.resetUses +
              (if (s.db.users[u].provider == Local || s.db.users[u].provider == Passkey) && s.now + d < ResetExpiry(s.now, ttlHours)
               then multiset{k} else multiset{})
  {
    var k := GenerateResetToken(s, u, id, ttlHours);
    RunCons(s, Tick(d), CheckEvents(r, k) + Steps(r, 3));
    assert Next(s, Tick(d)) == s.(now := s.now + d);
    MintedToken(s, u, id, ttlHours);
    MintedPasses(s, u, k, d);
    UsesAlone(Next(s, Tick(d)), r, k);
  }

  // It is good for a second use exactly within the clock second of a password
  // change that had come before it was minted.
  lemma MintedTokenReuseIff(s: State, a: ReqId, b: ReqId, u: UserId, id: nat, ttlHours: int, d0: nat, d: nat)
    requires u in s.db.users && HasPasswordLogin(s.db.users[u])
    requires s.db.users[u].passwordChangedAt.Some? ==> s.db.users[u].passwordChangedAt.value <= s.now
    requires a !in s.reqs && b !in s.reqs && a != b && s.now + d0 < ResetExpiry(s.now, ttlHours)
    ensures var k := GenerateResetToken(s, u, id, ttlHours);
            var c := s.db.users[u].passwordChangedAt;
            var twice := CheckEvents(a, k) + Steps(a, 3) + [Tick(d)] + (CheckEvents(b, k) + Steps(b, 3));
            Run(s, [Tick(d0)] + twice).log.resetUses[k] == s.log.resetUses[k] +
              (if s.now + d0 + d < ResetExpiry(s.now, ttlHours) && c.Some? && Unix(c.value) == Unix(s.now + d0) then 2 else 1)
  {
    var k := GenerateResetToken(s, u, id, ttlHours);
    RunCons(s, Tick(d0), CheckEvents(a, k) + Steps(a, 3) + [Tick(d)] + (CheckEvents(b, k) + Steps(b, 3)));
    assert Next(s, Tick(d0)) == s.(now := s.now + d0);
    MintedToken(s, u, id, ttlHours);
    MintedPasses(s, u, k, d0);
    ReuseInSequenceIff(Next(s, Tick(d0)), a, b, k, d);
    if s.db.users[u].passwordChangedAt.Some? { UnixMonotone(s.db.users[u].passwordChangedAt.value, s.now + d0); }
  }

  lemma UnixMonotone(a: Time, b: Time)
    requires a <= b
    ensures Unix(a) <= Unix(b)
  {
  }

  // And a save that read the row before a reset reopens the token after it.
  lemma SaveReopensToken(s: State, w: ReqId, a: ReqId, b: ReqId, k: ResetToken)
    requires ResetWouldPass(s, k) && w !in s.reqs && a !in s.reqs && b !in s.reqs && w != a && w != b && a != b
    ensures Run(s, [Save(s, w, k.user)] + (CheckEvents(a, k) + Steps(a, 3)) + [Step(w)] + (CheckEvents(b, k) + Steps(b, 3))).log.resetUses[k] ==
            s.log.resetUses[k] + 2
  {
    var row := s.db.users[k.user];
    var s1 := Goto(s, w, Saving(k.user, row));
    var s2 := Committed(s1, a, k, row.passwordChangedAt);
    RunConcat(s, [Save(s, w, k.user)] + (CheckEvents(a, k) + Steps(a, 3)) + [Step(w)], CheckEvents(b, k) + Steps(b, 3));
    RunThree(s, [Save(s, w, k.user)], CheckEvents(a, k) + Steps(a, 3), [Step(w)]);
    SaveBegins(s, s, w, k.user);
    ResetAlone(s1, a, k);
    RunOne(s2, Step(w));
    SaveStep(s2, w);
    LogsNext(s2, Step(w));
    ResetAlone(Next(s2, Step(w)), b, k);
  }
}
