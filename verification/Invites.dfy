// Invite-only registration: tokens spent by Register and by passkey signup, in
// any interleaving. Every event sequence is a run.
module Invites {
  import opened Clock
  import opened Options

  type InviteId = nat
  type UserId = nat
  type ReqId = nat

  // usedBy None is the empty used_by column.
  datatype Invite = Invite(expiresAt: Time, usedAt: Option<Time>, usedBy: Option<UserId>)

  datatype Phase =
    | Started(id: InviteId)
    | Checked(id: InviteId)               // GetByToken found it unused and unexpired
    | Spent(id: InviteId)                 // MarkUsed(id, "") succeeded
    | Joined(id: InviteId, user: UserId)  // the account exists; used_by is still to be set
    | PasskeyReady(id: InviteId)
    | PasskeyJoined(id: InviteId, user: UserId) // the account exists; the token is still to be marked
    | Done

  datatype State = State(
    now: Time,
    requireVerified: bool,
    invites: map<InviteId, Invite>,
    ids: set<InviteId>,
    users: set<UserId>,
    reqs: map<ReqId, Phase>,
    spent: multiset<InviteId>,      // successful MarkUsed calls
    registered: multiset<InviteId>, // accounts made by Register
    passkeyed: multiset<InviteId>)  // accounts made by passkey signup

  datatype Event =
    | Tick(d: nat)
    | CreateInvite(id: InviteId, expiresAt: Time)
    | DeleteInvite(id: InviteId)
    | BeginRegister(r: ReqId, id: InviteId)
    | BeginPasskey(r: ReqId, id: InviteId)
    | Step(r: ReqId)
    | CreateUser(r: ReqId, user: UserId)
    | Abort(r: ReqId)

  function Init(now: Time, rv: bool): State {
    State(now, rv, map[], {}, {}, map[], multiset{}, multiset{}, multiset{})
  }

  predicate Usable(s: State, id: InviteId) {
    id in s.invites && s.invites[id].usedAt.None? && s.invites[id].expiresAt > s.now
  }

  // The check of both handlers: they reject only once now is after expiresAt.
  predicate LooksValid(s: State, id: InviteId) {
    id in s.invites && s.invites[id].usedAt.None? && s.now <= s.invites[id].expiresAt
  }

  // UPDATE ... WHERE id = ? AND used_at IS NULL AND expires_at > now.
  function MarkUsed(s: State, id: InviteId, user: Option<UserId>): State {
    if Usable(s, id)
    then s.(invites := s.invites[id := s.invites[id].(usedAt := Some(s.now), usedBy := user)], spent := s.spent + multiset{id})
    else s
  }

  function Goto(s: State, r: ReqId, p: Phase): State { s.(reqs := s.reqs[r := p]) }

  function Advance(s: State, r: ReqId): State
    requires r in s.reqs
  {
    match s.reqs[r]
    case Started(id) =>
      if LooksValid(s, id) then Goto(s, r, Checked(id)) else Goto(s, r, Done)
    case Checked(id) => if Usable(s, id) then Goto(MarkUsed(s, id, None), r, Spent(id)) else Goto(s, r, Done)
    case Joined(id, u) => Goto(MarkUsed(s, id, Some(u)), r, Done)
    case PasskeyJoined(id, u) => Goto(MarkUsed(s, id, Some(u)), r, Done)
    case _ => s
  }

  // Register creates the account after spending; passkey signup creates it first,
  // and returns before marking when email verification is required.
  function Join(s: State, r: ReqId, u: UserId): State
    requires r in s.reqs
  {
    if u in s.users then s
    else match s.reqs[r]
      case Spent(id) =>
        Goto(s, r, if s.requireVerified then Done else Joined(id, u)).(users := s.users + {u}, registered := s.registered + multiset{id})
      case PasskeyReady(id) =>
        Goto(s, r, if s.requireVerified then Done else PasskeyJoined(id, u)).(users := s.users + {u}, passkeyed := s.passkeyed + multiset{id})
      case _ => s
  }

  function Next(s: State, e: Event): State {
    match e
    case Tick(d) => s.(now := s.now + d)
    case CreateInvite(id, exp) =>
      if id in s.ids then s else s.(ids := s.ids + {id}, invites := s.invites[id := Invite(exp, None, None)])
    case DeleteInvite(id) => s.(invites := s.invites - {id})
    case BeginRegister(r, id) => if r in s.reqs then s else Goto(s, r, Started(id))
    case BeginPasskey(r, id) =>
      if r in s.reqs || !LooksValid(s, id) then s else Goto(s, r, PasskeyReady(id))
    case Step(r) => if r in s.reqs then Advance(s, r) else s
    case CreateUser(r, u) => if r in s.reqs then Join(s, r, u) else s
    case Abort(r) => if r in s.reqs then Goto(s, r, Done) else s
  }

  function Run(s: State, es: seq<Event>): State {
    if es == [] then s else Next(Run(s, es[..|es| - 1]), es[|es| - 1])
  }

  // The phase holds a spend that has not yet made its account.
  predicate Owes(p: Phase, id: InviteId) { p == Spent(id) }

  // Register spent the token, so nothing can set used_by any more.
  ghost predicate SpentByRegister(s: State, id: InviteId) {
    s.registered[id] > 0 || exists r :: r in s.reqs && Owes(s.reqs[r], id)
  }

  ghost predicate Inv(s: State, id: InviteId) {
    (id in s.invites ==> id in s.ids) &&
    s.spent[id] <= 1 && s.registered[id] <= s.spent[id] &&
    (s.spent[id] == 1 ==> id in s.ids && (id in s.invites ==> s.invites[id].usedAt.Some?)) &&
    (forall r, q :: r in s.reqs && q in s.reqs && Owes(s.reqs[r], id) && Owes(s.reqs[q], id) ==> r == q) &&
    (forall r :: r in s.reqs && Owes(s.reqs[r], id) ==> s.spent[id] == 1 && s.registered[id] == 0) &&
    (SpentByRegister(s, id) && id in s.invites ==> s.invites[id].usedBy == None)
  }

  lemma InvGoto(s: State, r: ReqId, p: Phase, id: InviteId)
    requires Inv(s, id) && !p.Spent?
    ensures Inv(Goto(s, r, p), id)
  {
    var s' := Goto(s, r, p);
    assert forall q :: q in s'.reqs && Owes(s'.reqs[q], id) ==> q in s.reqs && Owes(s.reqs[q], id);
    assert SpentByRegister(s', id) ==> SpentByRegister(s, id);
  }

  // A spend after the account was made cannot touch a token Register has spent.
  lemma InvMark(s: State, j: InviteId, u: Option<UserId>, id: InviteId)
    requires Inv(s, id)
    ensures Inv(MarkUsed(s, j, u), id)
  {
    var s' := MarkUsed(s, j, u);
    assert SpentByRegister(s', id) ==> SpentByRegister(s, id);
  }

  lemma InvSpend(s: State, r: ReqId, j: InviteId, id: InviteId)
    requires Inv(s, id) && r in s.reqs && s.reqs[r] == Checked(j) && Usable(s, j)
    ensures Inv(Goto(MarkUsed(s, j, None), r, Spent(j)), id)
  {
    var s' := Goto(MarkUsed(s, j, None), r, Spent(j));
    assert forall q :: q in s'.reqs && Owes(s'.reqs[q], id) && q != r ==> q in s.reqs && Owes(s.reqs[q], id);
    if j == id {
      assert s.spent[id] == 0;
    } else {
      assert SpentByRegister(s', id) ==> SpentByRegister(s, id);
    }
  }

  lemma InvAdvance(s: State, r: ReqId, id: InviteId)
    requires Inv(s, id) && r in s.reqs
    ensures Inv(Advance(s, r), id)
  {
    match s.reqs[r]
    case Started(j) => InvGoto(s, r, Advance(s, r).reqs[r], id);
    case Checked(j) => if Usable(s, j) { InvSpend(s, r, j, id); } else { InvGoto(s, r, Done, id); }
    case Joined(j, u) =>
      InvMark(s, j, Some(u), id);
      InvGoto(MarkUsed(s, j, Some(u)), r, Done, id);
    case PasskeyJoined(j, u) =>
      InvMark(s, j, Some(u), id);
      InvGoto(MarkUsed(s, j, Some(u)), r, Done, id);
    case _ =>
  }

  lemma InvJoin(s: State, r: ReqId, u: UserId, id: InviteId)
    requires Inv(s, id) && r in s.reqs
    ensures Inv(Join(s, r, u), id)
  {
    var s' := Join(s, r, u);
    assert forall q :: q in s'.reqs && Owes(s'.reqs[q], id) ==> q in s.reqs && Owes(s.reqs[q], id);
    assert SpentByRegister(s', id) ==> SpentByRegister(s, id);
  }

  // Events that begin a request, or leave the requests alone.
  lemma InvBegin(s: State, r: ReqId, j: InviteId, id: InviteId)
    requires Inv(s, id)
    ensures Inv(Next(s, BeginRegister(r, j)), id) && Inv(Next(s, BeginPasskey(r, j)), id)
  {
    InvGoto(s, r, Started(j), id);
    InvGoto(s, r, PasskeyReady(j), id);
  }

  lemma InvTable(s: State, e: Event, id: InviteId)
    requires Inv(s, id) && (e.Tick? || e.CreateInvite? || e.DeleteInvite?)
    ensures Inv(Next(s, e), id)
  {
    assert SpentByRegister(Next(s, e), id) ==> SpentByRegister(s, id);
  }

  lemma {:induction false} InvNext(s: State, e: Event, id: InviteId)
    requires Inv(s, id)
    ensures Inv(Next(s, e), id)
  {
    match e
    case Step(r) => if r in s.reqs { InvAdvance(s, r, id); }
    case CreateUser(r, u) => if r in s.reqs { InvJoin(s, r, u, id); }
    case BeginRegister(r, j) => InvBegin(s, r, j, id);
    case BeginPasskey(r, j) => InvBegin(s, r, j, id);
    case Abort(r) => InvGoto(s, r, Done, id);
    case _ => InvTable(s, e, id);
  }

  lemma {:induction false} InvRun(s: State, es: seq<Event>, id: InviteId)
    requires Inv(s, id)
    ensures Inv(Run(s, es), id)
  {
    if es != [] {
      InvRun(s, es[..|es| - 1], id);
      InvNext(Run(s, es[..|es| - 1]), es[|es| - 1], id);
    }
  }

  // One invite token makes at most one account through Register, and never more
  // accounts than spends, under every interleaving.
  lemma InviteMakesOneAccount(now: Time, rv: bool, es: seq<Event>, id: InviteId)
    ensures var s := Run(Init(now, rv), es); s.registered[id] <= s.spent[id] <= 1
  {
    InvRun(Init(now, rv), es, id);
  }

  // The second MarkUsed of Register, meant to record the new user, never has an
  // effect: a token an account was registered with keeps an empty used_by.
  lemma UsedByStaysEmpty(now: Time, rv: bool, es: seq<Event>, id: InviteId)
    ensures var s := Run(Init(now, rv), es);
            s.registered[id] > 0 && id in s.invites ==> s.invites[id].usedAt.Some? && s.invites[id].usedBy == None
  {
    InvRun(Init(now, rv), es, id);
  }

  // ---- both ways of signing up together ----

  // Passkey signup makes the account first and marks the token afterwards, so the
  // token alone does not stop a second account.

  // The request makes one account next, whatever happens to the token.
  predicate Due(p: Phase, id: InviteId) { p == PasskeyReady(id) || p == Spent(id) }

  function DueReqs(s: State, id: InviteId): set<ReqId> {
    set r | r in s.reqs && Due(s.reqs[r], id)
  }

  // A passkey signup holds the token from its check to its mark.
  predicate InSignup(p: Phase, id: InviteId) {
    p == PasskeyReady(id) || (p.PasskeyJoined? && p.id == id)
  }

  predicate SignupHolds(s: State, id: InviteId) {
    exists r :: r in s.reqs && InSignup(s.reqs[r], id)
  }

  predicate CheckHolds(s: State, id: InviteId) {
    exists r :: r in s.reqs && s.reqs[r] == Checked(id)
  }

  // One more account can come out of the token itself.
  predicate Open(s: State, id: InviteId) {
    LooksValid(s, id) && (!SignupHolds(s, id) || CheckHolds(s, id))
  }

  // How the token can slip: a passkey signup passes its check while another
  // request holds the token; Register passes its check while a passkey signup
  // holds it; a passkey signup ends before its mark, by an error or because
  // verification is required; or it marks at the very instant of expiry, which
  // the check still accepts and the conditional update no longer does.
  predicate Slips(s: State, e: Event, id: InviteId) {
    LooksValid(s, id) &&
    (match e
     case BeginPasskey(r, j) => j == id && r !in s.reqs && (SignupHolds(s, id) || CheckHolds(s, id))
     case Step(r) =>
       r in s.reqs &&
       ((s.reqs[r] == Started(id) && SignupHolds(s, id)) ||
        (s.reqs[r].PasskeyJoined? && s.reqs[r].id == id && s.invites[id].expiresAt == s.now))
     case CreateUser(r, u) => r in s.reqs && s.reqs[r] == PasskeyReady(id) && u !in s.users && s.requireVerified
     case Abort(r) => r in s.reqs && s.reqs[r].PasskeyJoined? && s.reqs[r].id == id
     case _ => false)
  }

  function SlipCount(s: State, es: seq<Event>, id: InviteId): nat {
    if es == [] then 0
    else
      var front := es[..|es| - 1];
      SlipCount(s, front, id) + (if Slips(Run(s, front), es[|es| - 1], id) then 1 else 0)
  }

  function Accounts(s: State, id: InviteId): nat { s.registered[id] + s.passkeyed[id] }

  // The accounts there are and those that can come without another slip.
  function Potential(s: State, id: InviteId): nat {
    Accounts(s, id) + |DueReqs(s, id)| + (if Open(s, id) then 1 else 0)
  }

  lemma DueAfterGoto(s: State, r: ReqId, p: Phase, id: InviteId)
    ensures DueReqs(Goto(s, r, p), id) == (DueReqs(s, id) - {r}) + (if Due(p, id) then {r} else {})
  {
  }

  lemma WithoutOne(a: set<ReqId>, r: ReqId)
    ensures |a - {r}| == |a| - (if r in a then 1 else 0)
  {
    if r in a { assert a == (a - {r}) + {r}; } else { assert a - {r} == a; }
  }

  lemma DueGoto(s: State, r: ReqId, p: Phase, id: InviteId)
    ensures |DueReqs(Goto(s, r, p), id)| ==
            |DueReqs(s, id)| - (if r in DueReqs(s, id) then 1 else 0) + (if Due(p, id) then 1 else 0)
  {
    DueAfterGoto(s, r, p, id);
    WithoutOne(DueReqs(s, id), r);
  }

  // Moving one request leaves the token closed, unless a signup lets go of it or
  // Register has just checked it.
  lemma OpenGoto(s: State, r: ReqId, p: Phase, id: InviteId)
    requires Open(Goto(s, r, p), id)
    ensures Open(s, id) || p == Checked(id) || (r in s.reqs && InSignup(s.reqs[r], id) && !InSignup(p, id))
  {
    var s' := Goto(s, r, p);
    if !SignupHolds(s', id) && SignupHolds(s, id) {
      var q :| q in s.reqs && InSignup(s.reqs[q], id);
      assert q in s'.reqs && q == r;
    } else if CheckHolds(s', id) {
      var q :| q in s'.reqs && s'.reqs[q] == Checked(id);
      assert q != r ==> q in s.reqs && s.reqs[q] == Checked(id);
    }
  }

  // Without a change of phase, a token does not open by itself.
  lemma PotentialFrame(s: State, s': State, id: InviteId)
    requires s'.reqs == s.reqs && s'.registered == s.registered && s'.passkeyed == s.passkeyed
    requires LooksValid(s', id) ==> LooksValid(s, id)
    ensures Potential(s', id) <= Potential(s, id)
  {
    assert DueReqs(s', id) == DueReqs(s, id);
  }

  lemma PotentialGoto(s: State, r: ReqId, p: Phase, id: InviteId)
    requires !Due(p, id)
    requires p == Checked(id) ==> Open(s, id)
    requires r in s.reqs && InSignup(s.reqs[r], id) && !InSignup(p, id) ==> Due(s.reqs[r], id) || !LooksValid(s, id)
    ensures Potential(Goto(s, r, p), id) <= Potential(s, id)
  {
    DueGoto(s, r, p, id);
    if Open(Goto(s, r, p), id) { OpenGoto(s, r, p, id); }
  }

  // At worst one more account becomes possible.
  lemma PotentialGotoSlip(s: State, r: ReqId, p: Phase, id: InviteId)
    requires Due(p, id) ==> Open(s, id) || (r in s.reqs && Due(s.reqs[r], id))
    ensures Potential(Goto(s, r, p), id) <= Potential(s, id) + 1
  {
    DueGoto(s, r, p, id);
  }

  lemma PotentialBegin(s: State, r: ReqId, id: InviteId, j: InviteId)
    requires r !in s.reqs
    ensures var e := BeginPasskey(r, j); Potential(Next(s, e), id) <= Potential(s, id) + (if Slips(s, e, id) then 1 else 0)
  {
    if LooksValid(s, j) {
      var s' := Goto(s, r, PasskeyReady(j));
      DueGoto(s, r, PasskeyReady(j), id);
      if Open(s', id) { OpenGoto(s, r, PasskeyReady(j), id); }
      if j == id {
        assert s'.reqs[r] == PasskeyReady(id);
        if CheckHolds(s', id) {
          var q :| q in s'.reqs && s'.reqs[q] == Checked(id);
          assert q in s.reqs && s.reqs[q] == Checked(id);
        }
      }
    }
  }

  lemma PotentialSpend(s: State, r: ReqId, j: InviteId, id: InviteId)
    requires r in s.reqs && s.reqs[r] == Checked(j) && Usable(s, j)
    ensures Potential(Goto(MarkUsed(s, j, None), r, Spent(j)), id) <= Potential(s, id)
  {
    var s1 := MarkUsed(s, j, None);
    if j == id {
      assert CheckHolds(s, id) && Open(s, id);
      assert DueReqs(s1, id) == DueReqs(s, id);
      DueGoto(s1, r, Spent(j), id);
    } else {
      PotentialFrame(s, s1, id);
      PotentialGoto(s1, r, Spent(j), id);
    }
  }

  lemma PotentialMark(s: State, r: ReqId, j: InviteId, u: UserId, id: InviteId)
    requires r in s.reqs && (s.reqs[r] == Joined(j, u) || s.reqs[r] == PasskeyJoined(j, u))
    ensures Potential(Goto(MarkUsed(s, j, Some(u)), r, Done), id) <= Potential(s, id) + (if Slips(s, Step(r), id) then 1 else 0)
  {
    var s1 := MarkUsed(s, j, Some(u));
    PotentialFrame(s, s1, id);
    if Slips(s, Step(r), id) { PotentialGotoSlip(s1, r, Done, id); } else { PotentialGoto(s1, r, Done, id); }
  }

  lemma PotentialAdvance(s: State, r: ReqId, id: InviteId)
    requires r in s.reqs
    ensures Potential(Advance(s, r), id) <= Potential(s, id) + (if Slips(s, Step(r), id) then 1 else 0)
  {
    match s.reqs[r]
    case Started(j) =>
      if Slips(s, Step(r), id) {
        PotentialGotoSlip(s, r, Checked(j), id);
      } else {
        PotentialGoto(s, r, if LooksValid(s, j) then Checked(j) else Done, id);
      }
    case Checked(j) => if Usable(s, j) { PotentialSpend(s, r, j, id); } else { PotentialGoto(s, r, Done, id); }
    case Joined(j, u) => PotentialMark(s, r, j, u, id);
    case PasskeyJoined(j, u) => PotentialMark(s, r, j, u, id);
    case _ =>
  }

  // Creating the account turns what was due into an account.
  lemma PotentialJoin(s: State, r: ReqId, u: UserId, id: InviteId)
    requires r in s.reqs
    ensures Potential(Join(s, r, u), id) <= Potential(s, id) + (if Slips(s, CreateUser(r, u), id) then 1 else 0)
  {
    var s' := Join(s, r, u);
    if s' != s {
      var s1 := Goto(s, r, s'.reqs[r]);
      DueGoto(s, r, s'.reqs[r], id);
      assert DueReqs(s', id) == DueReqs(s1, id) && Open(s', id) == Open(s1, id);
      if Open(s1, id) { OpenGoto(s, r, s'.reqs[r], id); }
    }
  }

  lemma PotentialNext(s: State, e: Event, id: InviteId)
    requires id in s.ids
    ensures Potential(Next(s, e), id) <= Potential(s, id) + (if Slips(s, e, id) then 1 else 0)
  {
    match e
    case Step(r) => if r in s.reqs { PotentialAdvance(s, r, id); }
    case CreateUser(r, u) => if r in s.reqs { PotentialJoin(s, r, u, id); }
    case BeginPasskey(r, j) => if r !in s.reqs { PotentialBegin(s, r, id, j); }
    case BeginRegister(r, j) => if r !in s.reqs { PotentialGoto(s, r, Started(j), id); }
    case Abort(r) =>
      if r in s.reqs {
        if Slips(s, e, id) { PotentialGotoSlip(s, r, Done, id); } else { PotentialGoto(s, r, Done, id); }
      }
    case Tick(_) => PotentialFrame(s, Next(s, e), id);
    case CreateInvite(_, _) => PotentialFrame(s, Next(s, e), id);
    case DeleteInvite(_) => PotentialFrame(s, Next(s, e), id);
  }

  // An id that is still free has no accounts and no requests about to make one.
  ghost predicate Unborn(s: State, id: InviteId) {
    id !in s.invites && Accounts(s, id) == 0 && DueReqs(s, id) == {}
  }

  lemma NoneDue(s: State, e: Event, id: InviteId)
    requires Unborn(s, id) && id !in s.ids
    ensures DueReqs(Next(s, e), id) == {}
  {
    assert forall r :: r in s.reqs ==> r !in DueReqs(s, id) && !Due(s.reqs[r], id);
  }

  lemma UnbornNext(s: State, e: Event, id: InviteId)
    requires Unborn(s, id) && id !in s.ids
    ensures if id in Next(s, e).ids then Potential(Next(s, e), id) <= 1 else Unborn(Next(s, e), id)
  {
    NoneDue(s, e, id);
    if e.CreateUser? && e.r in s.reqs { assert e.r !in DueReqs(s, id) && !Due(s.reqs[e.r], id); }
  }

  lemma {:induction false} PotentialRun(now: Time, rv: bool, es: seq<Event>, id: InviteId)
    ensures var s := Run(Init(now, rv), es);
            if id in s.ids then Potential(s, id) <= 1 + SlipCount(Init(now, rv), es, id) else Unborn(s, id)
  {
    if es != [] {
      var s, e := Run(Init(now, rv), es[..|es| - 1]), es[|es| - 1];
      PotentialRun(now, rv, es[..|es| - 1], id);
      if id in s.ids {
        PotentialNext(s, e, id);
        IdsKept(s, e, id);
      } else {
        UnbornNext(s, e, id);
      }
    }
  }

  lemma IdsKept(s: State, e: Event, id: InviteId)
    requires id in s.ids
    ensures id in Next(s, e).ids
  {
  }

  // In every run the accounts made with one invite token, by Register and passkey
  // signup together, are at most one more than the slips. Without slips, one
  // invite makes at most one account.
  lemma {:induction false} AccountsPerInvite(now: Time, rv: bool, es: seq<Event>, id: InviteId)
    ensures Accounts(Run(Init(now, rv), es), id) <= 1 + SlipCount(Init(now, rv), es, id)
  {
    PotentialRun(now, rv, es, id);
  }

  // ---- each slip does cost an account ----

  // Two passkey signups that both passed the check before either marked the token.
  lemma PasskeySignupsShareAToken(s: State, a: ReqId, b: ReqId, u: UserId, v: UserId, id: InviteId)
    requires LooksValid(s, id) && a !in s.reqs && b !in s.reqs && a != b
    requires u !in s.users && v !in s.users && u != v
    ensures var s1 := Next(s, BeginPasskey(a, id));
            var s2 := Next(Next(Next(s1, BeginPasskey(b, id)), CreateUser(a, u)), CreateUser(b, v));
            Slips(s1, BeginPasskey(b, id), id) && s2.spent == s.spent && Accounts(s2, id) == Accounts(s, id) + 2
  {
    var s1 := Goto(s, a, PasskeyReady(id));
    assert s1.reqs[a] == PasskeyReady(id);
    var s2 := Next(Next(s1, BeginPasskey(b, id)), CreateUser(a, u));
    assert s2.reqs[b] == PasskeyReady(id);
  }

  // A passkey signup that passes its check while Register is between check and
  // spend, and a Register that passes its check during a passkey signup.
  lemma {:induction false} RegisterAndPasskeyShareAToken(s: State, a: ReqId, b: ReqId, u: UserId, v: UserId, id: InviteId, passkeyFirst: bool)
    requires Usable(s, id) && a !in s.reqs && b !in s.reqs && a != b
    requires u !in s.users && v !in s.users && u != v
    ensures var s0 := Next(s, BeginRegister(b, id));
            var s1 := Next(s0, if passkeyFirst then BeginPasskey(a, id) else Step(b));
            var second := if passkeyFirst then Step(b) else BeginPasskey(a, id);
            var s2 := Next(Next(Next(Next(s1, second), Step(b)), CreateUser(b, v)), CreateUser(a, u));
            Slips(s1, second, id) && s2.spent[id] == s.spent[id] + 1 && Accounts(s2, id) == Accounts(s, id) + 2
  {
    var both := Goto(Goto(s, b, Checked(id)), a, PasskeyReady(id));
    var s0 := Next(s, BeginRegister(b, id));
    var s1 := Next(s0, if passkeyFirst then BeginPasskey(a, id) else Step(b));
    var second := if passkeyFirst then Step(b) else BeginPasskey(a, id);
    if passkeyFirst {
      assert s1.reqs[a] == PasskeyReady(id);
      assert s1.reqs[b := Checked(id)] == both.reqs;
    } else {
      assert s1.reqs[b] == Checked(id);
      assert s1.reqs[a := PasskeyReady(id)] == both.reqs;
    }
    assert Next(s1, second) == both;
    SpendThenBothJoin(both, a, b, u, v, id);
  }

  lemma SpendThenBothJoin(s: State, a: ReqId, b: ReqId, u: UserId, v: UserId, id: InviteId)
    requires a in s.reqs && s.reqs[a] == PasskeyReady(id) && b in s.reqs && s.reqs[b] == Checked(id)
    requires Usable(s, id) && u !in s.users && v !in s.users && u != v
    ensures var s2 := Next(Next(Next(s, Step(b)), CreateUser(b, v)), CreateUser(a, u));
            s2.spent[id] == s.spent[id] + 1 && Accounts(s2, id) == Accounts(s, id) + 2
  {
    var s1 := Next(s, Step(b));
    assert s1 == Goto(MarkUsed(s, id, None), b, Spent(id));
  }

  // A signup cut off between its account and its mark leaves the token valid.
  lemma AbortedSignupKeepsToken(s: State, r: ReqId, u: UserId, id: InviteId)
    requires LooksValid(s, id) && !s.requireVerified && r !in s.reqs && u !in s.users
    ensures var s1 := Next(Next(s, BeginPasskey(r, id)), CreateUser(r, u));
            var s2 := Next(s1, Abort(r));
            Slips(s1, Abort(r), id) && Accounts(s2, id) == Accounts(s, id) + 1 && LooksValid(s2, id) &&
            s2 == s.(reqs := s.reqs[r := Done], users := s.users + {u}, passkeyed := s.passkeyed + multiset{id})
  {
    assert s.reqs[r := PasskeyReady(id)][r := PasskeyJoined(id, u)][r := Done] == s.reqs[r := Done];
  }

  // So does one that marks it at the very instant of expiry.
  lemma MarkAtExpiryKeepsToken(s: State, r: ReqId, u: UserId, id: InviteId)
    requires LooksValid(s, id) && s.invites[id].expiresAt == s.now && !s.requireVerified && r !in s.reqs && u !in s.users
    ensures var s1 := Next(Next(s, BeginPasskey(r, id)), CreateUser(r, u));
            var s2 := Next(s1, Step(r));
            Slips(s1, Step(r), id) && Accounts(s2, id) == Accounts(s, id) + 1 && LooksValid(s2, id) &&
            s2 == s.(reqs := s.reqs[r := Done], users := s.users + {u}, passkeyed := s.passkeyed + multiset{id})
  {
    assert s.reqs[r := PasskeyReady(id)][r := PasskeyJoined(id, u)][r := Done] == s.reqs[r := Done];
  }

  // And where verification is required no signup marks it.
  lemma VerifiedSignupKeepsToken(s: State, r: ReqId, u: UserId, id: InviteId)
    requires LooksValid(s, id) && s.requireVerified && r !in s.reqs && u !in s.users
    ensures var s1 := Next(s, BeginPasskey(r, id));
            var s2 := Next(s1, CreateUser(r, u));
            Slips(s1, CreateUser(r, u), id) && Accounts(s2, id) == Accounts(s, id) + 1 && LooksValid(s2, id) &&
            s2 == s.(reqs := s.reqs[r := Done], users := s.users + {u}, passkeyed := s.passkeyed + multiset{id})
  {
    assert s.reqs[r := PasskeyReady(id)][r := Done] == s.reqs[r := Done];
  }

  // Register for one invite, undisturbed: check, spend, account, and the second
  // MarkUsed, which never takes effect.
  function RegisterAll(s: State, r: ReqId, u: UserId, id: InviteId): State {
    Next(Next(Next(Next(Next(s, BeginRegister(r, id)), Step(r)), Step(r)), CreateUser(r, u)), Step(r))
  }

  // It makes an account exactly when the invite is there, unused and not yet at
  // its expiry, and then the invite is used now, by nobody.
  lemma {:induction false} RegisterAlone(s: State, r: ReqId, u: UserId, id: InviteId)
    requires r !in s.reqs && u !in s.users
    ensures var s' := RegisterAll(s, r, u, id);
            if id in s.invites && s.invites[id].usedAt == None && s.now < s.invites[id].expiresAt
            then s'.users == s.users + {u} && s'.registered == s.registered + multiset{id} &&
                 s'.invites == s.invites[id := Invite(s.invites[id].expiresAt, Some(s.now), None)]
            else s'.users == s.users && s'.registered == s.registered && s'.invites == s.invites
    ensures RegisterAll(s, r, u, id).passkeyed == s.passkeyed
  {
    var s1 := Next(s, BeginRegister(r, id));
    var s2 := Next(s1, Step(r));
    var s3 := Next(s2, Step(r));
    if LooksValid(s, id) {
      assert s2.reqs[r] == Checked(id) && s2.invites == s.invites;
      if Usable(s, id) {
        assert s3.reqs[r] == Spent(id) && !Usable(s3, id);
      } else {
        assert s3.reqs[r] == Done;
      }
    } else {
      assert s2.reqs[r] == Done && s3 == s2;
    }
  }

  // An invite made with this expiry lets one Register through while it lies ahead,
  // and none once the invite is deleted.
  lemma {:induction false} NewInviteWorks(s: State, id: InviteId, expiresAt: Time, d: nat, r: ReqId, u: UserId)
    requires id !in s.ids && r !in s.reqs && u !in s.users
    ensures var s1 := Next(Next(s, CreateInvite(id, expiresAt)), Tick(d));
            RegisterAll(s1, r, u, id).users == (if s.now + d < expiresAt then s.users + {u} else s.users) &&
            RegisterAll(Next(s1, DeleteInvite(id)), r, u, id).users == s.users
  {
    var s1 := Next(Next(s, CreateInvite(id, expiresAt)), Tick(d));
    assert s1.invites[id] == Invite(expiresAt, None, None);
    RegisterAlone(s1, r, u, id);
    RegisterAlone(Next(s1, DeleteInvite(id)), r, u, id);
  }

  function SignupAll(s: State, r: ReqId, u: UserId, id: InviteId): State {
    Next(Next(Next(s, BeginPasskey(r, id)), CreateUser(r, u)), Step(r))
  }

  // A passkey signup makes one up to the instant of expiry, and marks the invite
  // with its user only before it and where no verification is required.
  lemma {:induction false} SignupAlone(s: State, r: ReqId, u: UserId, id: InviteId)
    requires r !in s.reqs && u !in s.users
    ensures var s' := SignupAll(s, r, u, id);
            if id in s.invites && s.invites[id].usedAt == None && s.now <= s.invites[id].expiresAt
            then s'.users == s.users + {u} && s'.passkeyed == s.passkeyed + multiset{id} &&
                 s'.invites == (if s.requireVerified || s.now == s.invites[id].expiresAt then s.invites
                                else s.invites[id := Invite(s.invites[id].expiresAt, Some(s.now), Some(u))])
            else s'.users == s.users && s'.passkeyed == s.passkeyed && s'.invites == s.invites
    ensures SignupAll(s, r, u, id).registered == s.registered
  {
    var s1 := Next(s, BeginPasskey(r, id));
    var s2 := Next(s1, CreateUser(r, u));
    if LooksValid(s, id) {
      assert s1.reqs[r] == PasskeyReady(id);
      assert s2.reqs[r] == if s.requireVerified then Done else PasskeyJoined(id, u);
    } else {
      assert s1 == s && s2 == s;
    }
  }

  // Such signups, one after the other, with the requests and users from r and u on.
  function Signup(rv: bool, r: ReqId, u: UserId, id: InviteId): seq<Event> {
    [BeginPasskey(r, id), CreateUser(r, u)] + (if rv then [] else [Abort(r)])
  }

  function Signups(rv: bool, r: ReqId, u: UserId, id: InviteId, n: nat): seq<Event>
    decreases n
  {
    if n == 0 then [] else Signup(rv, r, u, id) + Signups(rv, r + 1, u + 1, id, n - 1)
  }

  lemma {:induction false} RunCons(s: State, e: Event, es: seq<Event>)
    ensures Run(s, [e] + es) == Run(Next(s, e), es)
  {
    if es == [] {
      assert [e] + es == [e] && [e][..0] == [];
    } else {
      ConsFront(e, es);
      RunCons(s, e, es[..|es| - 1]);
    }
  }

  lemma ConsFront(e: Event, es: seq<Event>)
    requires es != []
    ensures ([e] + es)[..|es|] == [e] + es[..|es| - 1] && ([e] + es)[|es|] == es[|es| - 1]
  {
  }

  // One more signup that leaves the token valid.
  lemma OneSignup(s: State, r: ReqId, u: UserId, id: InviteId, es: seq<Event>)
    requires LooksValid(s, id) && r !in s.reqs && u !in s.users
    ensures Run(s, Signup(s.requireVerified, r, u, id) + es) ==
            Run(s.(reqs := s.reqs[r := Done], users := s.users + {u}, passkeyed := s.passkeyed + multiset{id}), es)
  {
    var s1 := Next(s, BeginPasskey(r, id));
    if s.requireVerified {
      VerifiedSignupKeepsToken(s, r, u, id);
      assert Signup(s.requireVerified, r, u, id) + es == [BeginPasskey(r, id)] + ([CreateUser(r, u)] + es);
      RunCons(s, BeginPasskey(r, id), [CreateUser(r, u)] + es);
      RunCons(s1, CreateUser(r, u), es);
    } else {
      AbortedSignupKeepsToken(s, r, u, id);
      assert Signup(s.requireVerified, r, u, id) + es == [BeginPasskey(r, id)] + ([CreateUser(r, u)] + ([Abort(r)] + es));
      RunCons(s, BeginPasskey(r, id), [CreateUser(r, u)] + ([Abort(r)] + es));
      RunCons(s1, CreateUser(r, u), [Abort(r)] + es);
      RunCons(Next(s1, CreateUser(r, u)), Abort(r), es);
    }
  }

  // n signups in sequence make n accounts with one invite, in every state in which
  // the token is valid: always where verification is required, and otherwise when
  // each is cut off before its mark.
  lemma {:induction false} AnyNumberOfAccounts(s: State, r: ReqId, u: UserId, id: InviteId, n: nat)
    requires LooksValid(s, id)
    requires (forall q :: q in s.reqs ==> q < r) && (forall v :: v in s.users ==> v < u)
    ensures Accounts(Run(s, Signups(s.requireVerified, r, u, id, n)), id) == Accounts(s, id) + n
    ensures LooksValid(Run(s, Signups(s.requireVerified, r, u, id, n)), id)
    decreases n
  {
    if n > 0 {
      var s1 := s.(reqs := s.reqs[r := Done], users := s.users + {u}, passkeyed := s.passkeyed + multiset{id});
      OneSignup(s, r, u, id, Signups(s.requireVerified, r + 1, u + 1, id, n - 1));
      AnyNumberOfAccounts(s1, r + 1, u + 1, id, n - 1);
    }
  }
}
