// The recording lifecycle: webhook deliveries (duplicated, reordered, in flight
// together), the recording service, the job worker and admin deletes, all acting
// on the status column by optimistic locks. Every event sequence is a run.
module Recordings {
  import opened Options

  type RecId = nat
  type EgressId = nat
  type ReqId = nat

  datatype Status = Pending | Started | Processing | Completed | Failed | Deleting

  function Rank(st: Status): nat {
    match st
    case Pending => 0
    case Started => 1
    case Processing => 2
    case Completed => 3
    case Failed => 3
    case Deleting => 4
  }

  datatype Recording = Recording(egress: Option<EgressId>, status: Status, startedAt: bool)

  // What an egress_ended event reports.
  datatype EgressInfo = EgressInfo(egress: EgressId, failed: bool, fileUrl: string)

  datatype Phase =
    | StartedHook(egress: EgressId)
    | StartedFound(id: RecId)
    | StartedWon(id: RecId)                  // pending -> started succeeded
    | EndedHook(info: EgressInfo)
    | EndedFound(id: RecId, info: EgressInfo)
    | Won(id: RecId, info: EgressInfo)       // started -> processing succeeded
    | ErrorDue(id: RecId)                    // an UpdateError is next
    | JobTaken(id: RecId)
    | Working(id: RecId)                     // the worker saw status processing
    | Done

  datatype State = State(
    recs: map<RecId, Recording>,
    ids: set<RecId>,
    reqs: map<ReqId, Phase>,
    wins: multiset<RecId>,   // started -> processing transitions won by a delivery
    jobs: multiset<RecId>,   // process_recording jobs enqueued
    errors: multiset<RecId>, // UpdateError attempts of winning deliveries
    lost: multiset<RecId>,   // winning deliveries cut off by a crash
    claimed: set<(RecId, EgressInfo)>,  // wins, with what the event reported
    enqueued: set<(RecId, EgressInfo)>) // jobs, likewise

  datatype Event =
    | Create(id: RecId)
    | SetEgress(id: RecId, egress: EgressId)
    | StartedArrives(r: ReqId, egress: EgressId)
    | EndedArrives(r: ReqId, info: EgressInfo)
    | Lookup(r: ReqId, id: RecId)
    | Step(r: ReqId)
    | Enqueue(r: ReqId, ok: bool)
    | ErrorNotWritten(r: ReqId)
    | TakeJob(r: ReqId, id: RecId)
    | WorkerFails(r: ReqId)
    | StopFails(id: RecId)
    | MarkDeleting(id: RecId)
    | Remove(id: RecId)
    | Crash(r: ReqId)

  const INIT: State := State(map[], {}, map[], multiset{}, multiset{}, multiset{}, multiset{}, {}, {})

  function Goto(s: State, r: ReqId, p: Phase): State { s.(reqs := s.reqs[r := p]) }

  predicate At(s: State, id: RecId, st: Status) { id in s.recs && s.recs[id].status == st }

  function SetStatus(s: State, id: RecId, st: Status): State {
    if id in s.recs then s.(recs := s.recs[id := s.recs[id].(status := st)]) else s
  }

  // UPDATE ... WHERE id = ? AND status IN (pending, started, processing).
  function UpdateError(s: State, id: RecId): State {
    if id in s.recs && Rank(s.recs[id].status) <= 2 then SetStatus(s, id, Failed) else s
  }

  // Statements and branches of one request.
  function Advance(s: State, r: ReqId): State
    requires r in s.reqs
  {
    match s.reqs[r]
    case StartedFound(id) =>
      if At(s, id, Pending) then Goto(SetStatus(s, id, Started), r, StartedWon(id)) else Goto(s, r, Done)
    case StartedWon(id) =>
      Goto(if id in s.recs then s.(recs := s.recs[id := s.recs[id].(startedAt := true)]) else s, r, Done)
    case EndedFound(id, info) =>
      if At(s, id, Started)
      then Goto(SetStatus(s, id, Processing), r, Won(id, info)).(wins := s.wins + multiset{id}, claimed := s.claimed + {(id, info)})
      else Goto(s, r, Done)
    case Won(id, info) => if info.failed || info.fileUrl == "" then Goto(s, r, ErrorDue(id)) else s
    case ErrorDue(id) => Goto(UpdateError(s, id), r, Done).(errors := s.errors + multiset{id})
    case JobTaken(id) => Goto(s, r, if At(s, id, Processing) then Working(id) else Done)
    case Working(id) => Goto(if At(s, id, Processing) then SetStatus(s, id, Completed) else s, r, Done)
    case _ => s
  }

  function Begin(s: State, r: ReqId, p: Phase): State {
    if r in s.reqs then s else Goto(s, r, p)
  }

  function Next(s: State, e: Event): State {
    match e
    case Create(id) =>
      if id in s.ids then s else s.(ids := s.ids + {id}, recs := s.recs[id := Recording(None, Pending, false)])
    case SetEgress(id, egress) =>
      if At(s, id, Pending) then s.(recs := s.recs[id := Recording(Some(egress), Started, true)]) else s
    case StartedArrives(r, egress) => Begin(s, r, StartedHook(egress))
    case EndedArrives(r, info) => Begin(s, r, EndedHook(info))
    case Lookup(r, id) =>
      if r !in s.reqs || id !in s.recs then s
      else (match s.reqs[r]
            case StartedHook(egress) => if s.recs[id].egress == Some(egress) then Goto(s, r, StartedFound(id)) else s
            case EndedHook(info) => if s.recs[id].egress == Some(info.egress) then Goto(s, r, EndedFound(id, info)) else s
            case _ => s)
    case Step(r) => if r in s.reqs then Advance(s, r) else s
    case Enqueue(r, ok) =>
      if r in s.reqs && s.reqs[r].Won? && !s.reqs[r].info.failed && s.reqs[r].info.fileUrl != "" then
        if ok
        then Goto(s, r, Done).(jobs := s.jobs + multiset{s.reqs[r].id}, enqueued := s.enqueued + {(s.reqs[r].id, s.reqs[r].info)})
        else Goto(s, r, ErrorDue(s.reqs[r].id))
      else s
    case ErrorNotWritten(r) =>
      if r in s.reqs && s.reqs[r].ErrorDue? then Goto(s, r, Done).(errors := s.errors + multiset{s.reqs[r].id}) else s
    case TakeJob(r, id) => if s.jobs[id] > 0 then Begin(s, r, JobTaken(id)) else s
    case WorkerFails(r) =>
      if r in s.reqs && s.reqs[r].Working? then Goto(UpdateError(s, s.reqs[r].id), r, Done) else s
    case StopFails(id) => UpdateError(s, id)
    case MarkDeleting(id) => SetStatus(s, id, Deleting)
    case Remove(id) => s.(recs := s.recs - {id})
    case Crash(r) =>
      if r in s.reqs && Owing(s.reqs[r]) then Goto(s, r, Done).(lost := s.lost + multiset{s.reqs[r].id})
      else if r in s.reqs then Goto(s, r, Done) else s
  }

  // The delivery has won and has neither enqueued nor tried to record an error.
  predicate Owing(p: Phase) { p.Won? || p.ErrorDue? }

  function Run(s: State, es: seq<Event>): State {
    if es == [] then s else Next(Run(s, es[..|es| - 1]), es[|es| - 1])
  }

  predicate Owes(s: State, r: ReqId, id: RecId) {
    r in s.reqs && Owing(s.reqs[r]) && s.reqs[r].id == id
  }

  predicate Works(s: State, r: ReqId, id: RecId) {
    r in s.reqs && (s.reqs[r].Working? || s.reqs[r].JobTaken?) && s.reqs[r].id == id
  }

  ghost predicate Inv(s: State, id: RecId) {
    (id in s.recs ==> id in s.ids) &&
    s.wins[id] <= 1 &&
    (s.wins[id] == 1 ==> id in s.ids && (id in s.recs ==> Rank(s.recs[id].status) >= 2)) &&
    (forall r, q :: Owes(s, r, id) && Owes(s, q, id) ==> r == q) &&
    (forall r :: Owes(s, r, id) ==> s.wins[id] == 1 && s.jobs[id] + s.errors[id] + s.lost[id] == 0) &&
    ((forall r :: !Owes(s, r, id)) ==> s.wins[id] == s.jobs[id] + s.errors[id] + s.lost[id]) &&
    (forall r :: Works(s, r, id) ==> s.jobs[id] > 0) &&
    (At(s, id, Completed) ==> s.jobs[id] > 0)
  }

  // A change that leaves every claim on id as it was.
  lemma InvKept(s: State, s': State, id: RecId)
    requires Inv(s, id)
    requires forall r :: Owes(s', r, id) <==> Owes(s, r, id)
    requires forall r :: Works(s', r, id) ==> Works(s, r, id) || s.jobs[id] > 0
    requires s'.wins[id] == s.wins[id] && s'.jobs[id] == s.jobs[id] && s'.errors[id] == s.errors[id] && s'.lost[id] == s.lost[id]
    requires s.ids <= s'.ids && (id in s'.recs ==> id in s'.ids && (id in s.recs || id !in s.ids))
    requires id in s.recs && id in s'.recs ==> Rank(s.recs[id].status) <= Rank(s'.recs[id].status)
    requires At(s', id, Completed) ==> s.jobs[id] > 0
    ensures Inv(s', id)
  {
  }

  // A delivery pays what it owes: a job, an error attempt or a crash.
  lemma InvPaid(s: State, s': State, r: ReqId, id: RecId)
    requires Inv(s, id) && Owes(s, r, id)
    requires s'.reqs == s.reqs[r := Done] && s'.wins == s.wins && s'.ids == s.ids
    requires s'.jobs[id] + s'.errors[id] + s'.lost[id] == s.jobs[id] + s.errors[id] + s.lost[id] + 1
    requires s.jobs[id] <= s'.jobs[id]
    requires id in s'.recs ==> id in s.recs && Rank(s.recs[id].status) <= Rank(s'.recs[id].status)
    requires At(s', id, Completed) ==> At(s, id, Completed)
    ensures Inv(s', id)
  {
    forall q | Owes(s', q, id) ensures false {
      assert q != r && Owes(s, q, id);
    }
    assert forall q :: Works(s', q, id) ==> Works(s, q, id);
  }

  lemma InvWin(s: State, r: ReqId, id: RecId)
    requires Inv(s, id) && r in s.reqs && s.reqs[r].EndedFound? && s.reqs[r].id == id && At(s, id, Started)
    ensures Inv(Advance(s, r), id)
  {
    var s' := Advance(s, r);
    assert forall q :: !Owes(s, q, id);
    assert s.wins[id] == 0;
    assert Owes(s', r, id);
    assert forall q :: Owes(s', q, id) ==> q == r || Owes(s, q, id);
    assert forall q :: Works(s', q, id) ==> Works(s, q, id);
  }

  // A step that neither wins id nor pays for it leaves every claim on id as it was.
  lemma DebtKept(s: State, r: ReqId, id: RecId, q: ReqId)
    requires r in s.reqs && !(s.reqs[r].ErrorDue? && s.reqs[r].id == id)
    requires !(s.reqs[r].EndedFound? && s.reqs[r].id == id && At(s, id, Started))
    ensures Owes(Advance(s, r), q, id) <==> Owes(s, q, id)
  {
    match s.reqs[r]
    case EndedFound(j, info) =>
    case Won(j, info) =>
    case ErrorDue(j) =>
    case _ => assert q == r ==> !Owes(Advance(s, r), q, id);
  }

  lemma WorkKept(s: State, r: ReqId, id: RecId, q: ReqId)
    requires r in s.reqs
    ensures Works(Advance(s, r), q, id) ==> Works(s, q, id)
  {
    match s.reqs[r]
    case JobTaken(j) =>
    case Working(j) =>
    case _ => assert q == r ==> !Works(Advance(s, r), q, id);
  }

  lemma ClaimKept(s: State, r: ReqId, id: RecId)
    requires r in s.reqs && !(s.reqs[r].ErrorDue? && s.reqs[r].id == id)
    requires !(s.reqs[r].EndedFound? && s.reqs[r].id == id && At(s, id, Started))
    ensures forall q :: Owes(Advance(s, r), q, id) <==> Owes(s, q, id)
    ensures forall q :: Works(Advance(s, r), q, id) ==> Works(s, q, id)
  {
    forall q ensures Owes(Advance(s, r), q, id) <==> Owes(s, q, id) { DebtKept(s, r, id, q); }
    forall q ensures Works(Advance(s, r), q, id) ==> Works(s, q, id) { WorkKept(s, r, id, q); }
  }

  lemma InvAdvance(s: State, r: ReqId, id: RecId)
    requires Inv(s, id) && r in s.reqs
    ensures Inv(Advance(s, r), id)
  {
    var s' := Advance(s, r);
    if s.reqs[r].ErrorDue? && s.reqs[r].id == id {
      assert Owes(s, r, id);
      InvPaid(s, s', r, id);
    } else if s.reqs[r].EndedFound? && s.reqs[r].id == id && At(s, id, Started) {
      InvWin(s, r, id);
    } else {
      ClaimKept(s, r, id);
      assert s.reqs[r].Working? && s.reqs[r].id == id ==> Works(s, r, id);
      InvKept(s, s', id);
    }
  }

  // Events that only touch the recordings table.
  lemma InvTable(s: State, e: Event, id: RecId)
    requires Inv(s, id) && (e.Create? || e.SetEgress? || e.StopFails? || e.MarkDeleting? || e.Remove?)
    ensures Inv(Next(s, e), id)
  {
    assert Next(s, e).reqs == s.reqs;
    assert forall q :: Owes(Next(s, e), q, id) == Owes(s, q, id) && Works(Next(s, e), q, id) == Works(s, q, id);
    InvKept(s, Next(s, e), id);
  }

  lemma InvOther(s: State, e: Event, id: RecId)
    requires Inv(s, id) && (e.StartedArrives? || e.EndedArrives? || e.Lookup? || e.TakeJob? || e.WorkerFails?)
    ensures Inv(Next(s, e), id)
  {
    var s' := Next(s, e);
    forall q ensures Owes(s', q, id) <==> Owes(s, q, id) { }
    assert forall q :: Works(s', q, id) ==> Works(s, q, id) || s.jobs[id] > 0;
    InvKept(s, s', id);
  }

  lemma InvOutcome(s: State, e: Event, id: RecId)
    requires Inv(s, id) && (e.Enqueue? || e.ErrorNotWritten? || e.Crash?)
    ensures Inv(Next(s, e), id)
  {
    var s' := Next(s, e);
    if s' != s && Owes(s, e.r, id) && !(e.Enqueue? && !e.ok) {
      InvPaid(s, s', e.r, id);
    } else {
      forall q ensures Owes(s', q, id) <==> Owes(s, q, id) { }
      assert forall q :: Works(s', q, id) ==> Works(s, q, id);
      InvKept(s, s', id);
    }
  }

  lemma {:induction false} InvNext(s: State, e: Event, id: RecId)
    requires Inv(s, id)
    ensures Inv(Next(s, e), id)
  {
    if e.Step? {
      if e.r in s.reqs { InvAdvance(s, e.r, id); }
    } else if e.Enqueue? || e.ErrorNotWritten? || e.Crash? {
      InvOutcome(s, e, id);
    } else if e.Create? || e.SetEgress? || e.StopFails? || e.MarkDeleting? || e.Remove? {
      InvTable(s, e, id);
    } else {
      InvOther(s, e, id);
    }
  }

  lemma {:induction false} InvRun(es: seq<Event>, id: RecId)
    ensures Inv(Run(INIT, es), id)
  {
    if es != [] {
      InvRun(es[..|es| - 1], id);
      InvNext(Run(INIT, es[..|es| - 1]), es[|es| - 1], id);
    }
  }

  // Conservation: every won started -> processing transition has ended in exactly
  // one job, one error attempt or one crash, or is still in flight, in exactly
  // one delivery; and a recording is won, and so enqueued, at most once.
  lemma {:induction false} OneOutcomePerWin(es: seq<Event>, id: RecId)
    ensures var s := Run(INIT, es);
            s.wins[id] <= 1 && s.jobs[id] <= 1 &&
            s.jobs[id] + s.errors[id] + s.lost[id] == (if exists r :: Owes(s, r, id) then 0 else s.wins[id]) &&
            (forall r, q :: Owes(s, r, id) && Owes(s, q, id) ==> r == q) &&
            ((exists r :: Owes(s, r, id)) ==> s.wins[id] == 1)
  {
    InvRun(es, id);
    var s := Run(INIT, es);
    if r :| Owes(s, r, id) { assert s.wins[id] == 1; }
  }

  // A completed recording was enqueued exactly once and its delivery recorded no error.
  lemma {:induction false} CompletedMeansOneJob(es: seq<Event>, id: RecId)
    requires At(Run(INIT, es), id, Completed)
    ensures Run(INIT, es).jobs[id] == 1 && Run(INIT, es).errors[id] == 0
  {
    OneOutcomePerWin(es, id);
    InvRun(es, id);
  }

  // A status change always goes up; a removed recording never comes back.
  ghost predicate Forward(s: State, s': State, id: RecId) {
    (id in s.ids ==> id in s'.ids) &&
    (id in s.ids && id !in s.recs ==> id !in s'.recs) &&
    (id in s.recs && id in s'.recs ==>
       s'.recs[id].status == s.recs[id].status || Rank(s'.recs[id].status) > Rank(s.recs[id].status))
  }

  lemma ForwardNext(s: State, e: Event, id: RecId)
    requires id in s.ids
    ensures Forward(s, Next(s, e), id)
  {
    if e.Step? {
      if e.r in s.reqs { ForwardAdvance(s, e.r, id); }
    }
  }

  lemma ForwardAdvance(s: State, r: ReqId, id: RecId)
    requires r in s.reqs
    ensures Forward(s, Advance(s, r), id)
  {
    match s.reqs[r]
    case StartedFound(j) =>
    case StartedWon(j) =>
    case EndedFound(j, info) =>
    case ErrorDue(j) =>
    case Working(j) =>
    case _ =>
  }

  lemma {:induction false} StatusOnlyMovesForward(s: State, es: seq<Event>, id: RecId)
    requires id in s.ids
    ensures Forward(s, Run(s, es), id)
  {
    if es != [] {
      StatusOnlyMovesForward(s, es[..|es| - 1], id);
      ForwardNext(Run(s, es[..|es| - 1]), es[|es| - 1], id);
    }
  }

  // ---- one delivery, undisturbed ----

  lemma RunCons(s: State, e: Event, es: seq<Event>)
    ensures Run(s, [e] + es) == Run(Next(s, e), es)
  {
    if es == [] {
      assert [e] + es == [e] && [e][..0] == [];
    } else {
      var all := [e] + es;
      assert all[..|all| - 1] == [e] + es[..|es| - 1] && all[|all| - 1] == es[|es| - 1];
      RunCons(s, e, es[..|es| - 1]);
    }
  }

  // The statements of handleEgressEnded, in order; ok is whether the enqueue works.
  function Delivery(r: ReqId, info: EgressInfo, id: RecId, ok: bool): seq<Event> {
    [EndedArrives(r, info)] + ([Lookup(r, id)] + ([Step(r)] + Outcome(r, ok)))
  }

  function Outcome(r: ReqId, ok: bool): seq<Event> { [Enqueue(r, ok)] + ([Step(r)] + ([Step(r)] + [])) }

  lemma OutcomeRun(s: State, r: ReqId, ok: bool)
    ensures Run(s, Outcome(r, ok)) == Next(Next(Next(s, Enqueue(r, ok)), Step(r)), Step(r))
  {
    RunCons(s, Enqueue(r, ok), [Step(r)] + ([Step(r)] + []));
    RunCons(Next(s, Enqueue(r, ok)), Step(r), [Step(r)] + []);
    RunCons(Next(Next(s, Enqueue(r, ok)), Step(r)), Step(r), []);
  }

  lemma OutcomeAlone(s: State, r: ReqId, id: RecId, info: EgressInfo, ok: bool)
    requires r in s.reqs && s.reqs[r] == Won(id, info) && id in s.recs && s.recs[id].status == Processing
    ensures var s' := Run(s, Outcome(r, ok));
            if !info.failed && info.fileUrl != "" && ok
            then s'.recs == s.recs && s'.jobs == s.jobs + multiset{id} && s'.errors == s.errors
            else s'.recs == s.recs[id := s.recs[id].(status := Failed)] && s'.jobs == s.jobs && s'.errors == s.errors + multiset{id}
  {
    OutcomeRun(s, r, ok);
    if !info.failed && info.fileUrl != "" {
      GoodOutcome(s, r, id, info, ok);
    } else {
      BadOutcome(s, r, id, info, ok);
    }
  }

  lemma GoodOutcome(s: State, r: ReqId, id: RecId, info: EgressInfo, ok: bool)
    requires r in s.reqs && s.reqs[r] == Won(id, info) && id in s.recs && s.recs[id].status == Processing
    requires !info.failed && info.fileUrl != ""
    ensures var s' := Next(Next(Next(s, Enqueue(r, ok)), Step(r)), Step(r));
            if ok then s'.recs == s.recs && s'.jobs == s.jobs + multiset{id} && s'.errors == s.errors
            else s'.recs == s.recs[id := s.recs[id].(status := Failed)] && s'.jobs == s.jobs && s'.errors == s.errors + multiset{id}
  {
    var s1 := Next(s, Enqueue(r, ok));
    assert s1.reqs[r] == if ok then Done else ErrorDue(id);
  }

  lemma BadOutcome(s: State, r: ReqId, id: RecId, info: EgressInfo, ok: bool)
    requires r in s.reqs && s.reqs[r] == Won(id, info) && id in s.recs && s.recs[id].status == Processing
    requires info.failed || info.fileUrl == ""
    ensures var s' := Next(Next(Next(s, Enqueue(r, ok)), Step(r)), Step(r));
            s'.recs == s.recs[id := s.recs[id].(status := Failed)] && s'.jobs == s.jobs && s'.errors == s.errors + multiset{id}
  {
    assert Next(s, Enqueue(r, ok)) == s;
    assert Next(s, Step(r)).reqs[r] == ErrorDue(id);
  }

  lemma ClaimAlone(s: State, r: ReqId, info: EgressInfo, id: RecId)
    requires r !in s.reqs && id in s.recs && s.recs[id].egress == Some(info.egress)
    ensures var s' := Next(Next(Next(s, EndedArrives(r, info)), Lookup(r, id)), Step(r));
            s'.jobs == s.jobs && s'.errors == s.errors && r in s'.reqs &&
            if s.recs[id].status == Started
            then s'.recs == s.recs[id := s.recs[id].(status := Processing)] && s'.reqs[r] == Won(id, info)
            else s'.recs == s.recs && s'.reqs[r] == Done
  {
    var s1 := Next(Next(s, EndedArrives(r, info)), Lookup(r, id));
    assert s1.reqs[r] == EndedFound(id, info);
  }

  lemma DoneOutcome(s: State, r: ReqId, ok: bool)
    requires r in s.reqs && s.reqs[r] == Done
    ensures Run(s, Outcome(r, ok)) == s
  {
    OutcomeRun(s, r, ok);
    assert Next(s, Enqueue(r, ok)) == s;
    assert Next(s, Step(r)) == s;
  }

  // An undisturbed egress_ended for a started recording with that egress makes one
  // job and leaves it processing exactly when the egress did not fail, has a file
  // URL and the enqueue works; otherwise it records one error and the recording
  // has failed. For a recording in any other status it changes nothing.
  lemma {:induction false} DeliveryAlone(s: State, r: ReqId, info: EgressInfo, id: RecId, ok: bool)
    requires r !in s.reqs && id in s.recs && s.recs[id].egress == Some(info.egress)
    ensures var s' := Run(s, Delivery(r, info, id, ok));
            if s.recs[id].status != Started then s'.recs == s.recs && s'.jobs == s.jobs && s'.errors == s.errors
            else if !info.failed && info.fileUrl != "" && ok then
              s'.recs == s.recs[id := s.recs[id].(status := Processing)] && s'.jobs == s.jobs + multiset{id} && s'.errors == s.errors
            else
              s'.recs == s.recs[id := s.recs[id].(status := Failed)] && s'.jobs == s.jobs && s'.errors == s.errors + multiset{id}
  {
    var s1 := Next(s, EndedArrives(r, info));
    var s2 := Next(s1, Lookup(r, id));
    var s3 := Next(s2, Step(r));
    RunCons(s, EndedArrives(r, info), [Lookup(r, id)] + ([Step(r)] + Outcome(r, ok)));
    RunCons(s1, Lookup(r, id), [Step(r)] + Outcome(r, ok));
    RunCons(s2, Step(r), Outcome(r, ok));
    ClaimAlone(s, r, info, id);
    if s.recs[id].status == Started { OutcomeAlone(s3, r, id, info, ok); } else { DoneOutcome(s3, r, ok); }
  }

  // If that error cannot be written, the recording stays processing, without a job.
  lemma {:induction false} UnwrittenErrorSticks(s: State, r: ReqId, info: EgressInfo, id: RecId, ok: bool)
    requires r !in s.reqs && id in s.recs && s.recs[id].egress == Some(info.egress) && s.recs[id].status == Started
    requires info.failed || info.fileUrl == "" || !ok
    ensures var won := Next(Next(Next(s, EndedArrives(r, info)), Lookup(r, id)), Step(r));
            var due := Next(won, if info.failed || info.fileUrl == "" then Step(r) else Enqueue(r, ok));
            var s' := Next(due, ErrorNotWritten(r));
            s'.recs == s.recs[id := s.recs[id].(status := Processing)] && s'.jobs == s.jobs && s'.errors == s.errors + multiset{id}
  {
    var won := Next(Next(Next(s, EndedArrives(r, info)), Lookup(r, id)), Step(r));
    ClaimAlone(s, r, info, id);
    assert Next(won, if info.failed || info.fileUrl == "" then Step(r) else Enqueue(r, ok)).reqs[r] == ErrorDue(id);
  }

  // So does one whose winning delivery is cut off.
  lemma {:induction false} CrashedWinSticks(s: State, r: ReqId, info: EgressInfo, id: RecId)
    requires r !in s.reqs && id in s.recs && s.recs[id].egress == Some(info.egress) && s.recs[id].status == Started
    ensures var won := Next(Next(Next(s, EndedArrives(r, info)), Lookup(r, id)), Step(r));
            var s' := Next(won, Crash(r));
            s'.recs == s.recs[id := s.recs[id].(status := Processing)] && s'.jobs == s.jobs && s'.errors == s.errors &&
            s'.lost == s.lost + multiset{id} && s'.reqs == s.reqs[r := Done]
  {
    var won := Next(Next(Next(s, EndedArrives(r, info)), Lookup(r, id)), Step(r));
    ClaimAlone(s, r, info, id);
    assert won.lost == s.lost && won.reqs == s.reqs[r := Won(id, info)];
  }

  // A recording is created pending and without an egress; its start sets both.
  lemma RecordingStarts(s: State, id: RecId, egress: EgressId)
    requires id !in s.ids
    ensures Next(s, Create(id)).recs == s.recs[id := Recording(None, Pending, false)]
    ensures Next(Next(s, Create(id)), SetEgress(id, egress)).recs == s.recs[id := Recording(Some(egress), Started, true)]
  {
  }

  // The statements of the service and the admin, by the status they meet: a start
  // needs a pending recording, an error one that is not at an end, an admin none.
  lemma {:induction false} TableAlone(s: State, id: RecId, egress: EgressId)
    requires id in s.recs
    ensures Next(s, SetEgress(id, egress)).recs ==
            (if s.recs[id].status == Pending then s.recs[id := Recording(Some(egress), Started, true)] else s.recs)
    ensures Next(s, StopFails(id)).recs ==
            (if s.recs[id].status in {Pending, Started, Processing} then s.recs[id := s.recs[id].(status := Failed)] else s.recs)
    ensures Next(s, MarkDeleting(id)).recs == s.recs[id := s.recs[id].(status := Deleting)]
    ensures Next(s, Remove(id)).recs == s.recs - {id}
  {
  }

  // A delivery finds no recording but the one with its egress.
  lemma LookupFindsEgress(s: State, r: ReqId, info: EgressInfo, id: RecId)
    requires r in s.reqs && s.reqs[r] == EndedHook(info)
    ensures Next(s, Lookup(r, id)) != s <==> id in s.recs && s.recs[id].egress == Some(info.egress)
  {
    if id in s.recs && s.recs[id].egress == Some(info.egress) {
      assert Next(s, Lookup(r, id)).reqs[r] == EndedFound(id, info);
    }
  }

  // ---- which deliveries make jobs, in every run ----

  // A request holds info for id, found by the egress the event carried.
  predicate Carries(p: Phase, id: RecId, info: EgressInfo) {
    (p.EndedFound? || p.Won?) && p.id == id && p.info == info
  }

  predicate HasEgress(s: State, id: RecId, egress: EgressId) {
    id in s.ids && (id in s.recs ==> s.recs[id].egress == Some(egress))
  }

  // A recording with an egress has left the pending status, the only one in which
  // its egress can be set.
  predicate RecOk(s: State, id: RecId) {
    id in s.recs ==> id in s.ids && (s.recs[id].egress.Some? ==> s.recs[id].status != Pending)
  }

  predicate WonIsClaimed(s: State, r: ReqId) {
    r in s.reqs && s.reqs[r].Won? ==> (s.reqs[r].id, s.reqs[r].info) in s.claimed
  }

  predicate ReportOk(s: State, r: ReqId) {
    r in s.reqs && (s.reqs[r].EndedFound? || s.reqs[r].Won?) ==> HasEgress(s, s.reqs[r].id, s.reqs[r].info.egress)
  }

  predicate GoodJob(s: State, x: (RecId, EgressInfo)) {
    x in s.claimed && !x.1.failed && x.1.fileUrl != ""
  }

  ghost predicate HasReport(s: State, id: RecId) { exists info :: (id, info) in s.enqueued }

  ghost predicate JobInv(s: State) {
    (forall id :: RecOk(s, id)) && (forall r :: WonIsClaimed(s, r) && ReportOk(s, r)) &&
    (forall x :: x in s.claimed ==> HasEgress(s, x.0, x.1.egress)) &&
    (forall x :: x in s.enqueued ==> GoodJob(s, x)) &&
    (forall id :: s.jobs[id] > 0 ==> HasReport(s, id))
  }

  lemma RecAdvance(s: State, r: ReqId, id: RecId)
    requires r in s.reqs && RecOk(s, id)
    ensures RecOk(Advance(s, r), id)
    ensures Advance(s, r).ids == s.ids && (id in Advance(s, r).recs <==> id in s.recs)
    ensures id in s.recs ==> Advance(s, r).recs[id].egress == s.recs[id].egress
  {
    EgressAdvance(s, r, id);
    ForwardAdvance(s, r, id);
  }

  lemma EgressAdvance(s: State, r: ReqId, id: RecId)
    requires r in s.reqs
    ensures Advance(s, r).ids == s.ids && (id in Advance(s, r).recs <==> id in s.recs)
    ensures id in s.recs ==> Advance(s, r).recs[id].egress == s.recs[id].egress
  {
    match s.reqs[r]
    case StartedFound(j) =>
    case StartedWon(j) =>
    case EndedFound(j, info) =>
    case ErrorDue(j) =>
    case Working(j) =>
    case _ =>
  }

  lemma RecNext(s: State, e: Event, id: RecId)
    requires RecOk(s, id)
    ensures RecOk(Next(s, e), id)
  {
    if e.Step? {
      if e.r in s.reqs { RecAdvance(s, e.r, id); }
    }
  }

  // The egress of a recording never changes once it is set.
  lemma EgressNext(s: State, e: Event, id: RecId, egress: EgressId)
    requires RecOk(s, id) && HasEgress(s, id, egress)
    ensures HasEgress(Next(s, e), id, egress)
  {
    if e.Step? {
      if e.r in s.reqs { RecAdvance(s, e.r, id); }
    }
  }

  // Where the phases that carry a report come from.
  lemma CarriesNext(s: State, e: Event, r: ReqId)
    requires r in Next(s, e).reqs && (Next(s, e).reqs[r].EndedFound? || Next(s, e).reqs[r].Won?)
    ensures var p := Next(s, e).reqs[r];
            (r in s.reqs && Carries(s.reqs[r], p.id, p.info)) || (p.id in s.recs && s.recs[p.id].egress == Some(p.info.egress))
  {
    if e.Step? {
      if e.r in s.reqs { PhasesAdvance(s, e.r, r); }
    } else if !e.Lookup? {
      PhasesKept(s, e, r);
    }
  }

  // Other events begin or end requests, or let them be.
  lemma PhasesKept(s: State, e: Event, r: ReqId)
    requires !e.Step? && !e.Lookup? && r in Next(s, e).reqs
    ensures (r in s.reqs && Next(s, e).reqs[r] == s.reqs[r]) ||
            Next(s, e).reqs[r].Done? || Next(s, e).reqs[r].ErrorDue? || Next(s, e).reqs[r].JobTaken? ||
            Next(s, e).reqs[r].StartedHook? || Next(s, e).reqs[r].EndedHook?
  {
  }

  lemma PhasesAdvance(s: State, r: ReqId, q: ReqId)
    requires r in s.reqs && q in Advance(s, r).reqs && (Advance(s, r).reqs[q].EndedFound? || Advance(s, r).reqs[q].Won?)
    ensures var p := Advance(s, r).reqs[q];
            q in s.reqs && Carries(s.reqs[q], p.id, p.info) && (p.Won? && !s.reqs[q].Won? ==> (p.id, p.info) in Advance(s, r).claimed)
  {
    match s.reqs[r]
    case EndedFound(j, info) =>
    case Won(j, info) =>
    case _ =>
  }

  lemma HistoryAdvance(s: State, r: ReqId)
    requires r in s.reqs
    ensures var s' := Advance(s, r);
            s'.enqueued == s.enqueued && s'.jobs == s.jobs && s.claimed <= s'.claimed &&
            forall x :: x in s'.claimed && x !in s.claimed ==> s.reqs[r].EndedFound? && x == (s.reqs[r].id, s.reqs[r].info)
  {
    match s.reqs[r]
    case StartedFound(j) =>
    case EndedFound(j, info) =>
    case ErrorDue(j) =>
    case Working(j) =>
    case _ =>
  }

  lemma ClaimsNext(s: State, e: Event)
    requires JobInv(s)
    ensures s.claimed <= Next(s, e).claimed
    ensures forall x :: x in Next(s, e).claimed ==> HasEgress(s, x.0, x.1.egress)
  {
    if e.Step? && e.r in s.reqs {
      HistoryAdvance(s, e.r);
      assert ReportOk(s, e.r);
    }
  }

  lemma JobsNext(s: State, e: Event)
    requires JobInv(s)
    ensures s.enqueued <= Next(s, e).enqueued
    ensures forall x :: x in Next(s, e).enqueued ==> x in s.claimed && !x.1.failed && x.1.fileUrl != ""
    ensures forall id :: Next(s, e).jobs[id] > 0 ==> s.jobs[id] > 0 || HasReport(Next(s, e), id)
  {
    if e.Step? && e.r in s.reqs {
      HistoryAdvance(s, e.r);
    } else if e.Enqueue? && Next(s, e) != s && e.ok {
      assert WonIsClaimed(s, e.r);
      assert (s.reqs[e.r].id, s.reqs[e.r].info) in Next(s, e).enqueued;
    }
  }

  lemma ReportsNext(s: State, e: Event, r: ReqId)
    requires JobInv(s)
    ensures ReportOk(Next(s, e), r)
  {
    var s' := Next(s, e);
    if r in s'.reqs && (s'.reqs[r].EndedFound? || s'.reqs[r].Won?) {
      var p := s'.reqs[r];
      CarriesNext(s, e, r);
      assert RecOk(s, p.id) && ReportOk(s, r);
      EgressNext(s, e, p.id, p.info.egress);
    }
  }

  lemma WinsNext(s: State, e: Event, r: ReqId)
    requires WonIsClaimed(s, r) && s.claimed <= Next(s, e).claimed
    ensures WonIsClaimed(Next(s, e), r)
  {
    if e.Step? {
      if e.r in s.reqs && r in Next(s, e).reqs && Next(s, e).reqs[r].Won? { PhasesAdvance(s, e.r, r); }
    }
  }

  lemma {:induction false} JobInvNext(s: State, e: Event)
    requires JobInv(s)
    ensures JobInv(Next(s, e))
  {
    var s' := Next(s, e);
    ClaimsNext(s, e);
    JobsNext(s, e);
    forall id ensures RecOk(s', id) { RecNext(s, e, id); }
    forall r ensures WonIsClaimed(s', r) && ReportOk(s', r) {
      WinsNext(s, e, r);
      ReportsNext(s, e, r);
    }
    forall x | x in s'.claimed ensures HasEgress(s', x.0, x.1.egress) { EgressNext(s, e, x.0, x.1.egress); }
    forall id | s'.jobs[id] > 0 ensures HasReport(s', id) {
      if s.jobs[id] > 0 {
        var info :| (id, info) in s.enqueued;
        assert (id, info) in s'.enqueued;
      }
    }
  }

  lemma {:induction false} JobInvRun(es: seq<Event>)
    ensures JobInv(Run(INIT, es))
  {
    if es != [] {
      JobInvRun(es[..|es| - 1]);
      JobInvNext(Run(INIT, es[..|es| - 1]), es[|es| - 1]);
    }
  }

  // In every run, a recording that has a job got it from a delivery that won it,
  // whose egress had not failed and had a file URL; and whatever was won has the
  // egress id its event carried.
  lemma {:induction false} JobsAreForGoodEgresses(es: seq<Event>, id: RecId)
    ensures var s := Run(INIT, es);
            (s.jobs[id] > 0 ==> HasReport(s, id)) &&
            (forall info :: (id, info) in s.enqueued ==> (id, info) in s.claimed && !info.failed && info.fileUrl != "") &&
            (forall info :: (id, info) in s.claimed && id in s.recs ==> s.recs[id].egress == Some(info.egress))
  {
    JobInvRun(es);
    var s := Run(INIT, es);
    forall info | (id, info) in s.claimed && id in s.recs ensures s.recs[id].egress == Some(info.egress) {
      assert HasEgress(s, (id, info).0, (id, info).1.egress);
    }
    forall info | (id, info) in s.enqueued ensures (id, info) in s.claimed && !info.failed && info.fileUrl != "" {
      assert GoodJob(s, (id, info));
    }
  }

  // ---- egress_started, and the worker ----

  predicate FoundOk(s: State, r: ReqId) {
    r in s.reqs ==>
      !s.reqs[r].StartedWon? &&
      (s.reqs[r].StartedFound? ==> s.reqs[r].id in s.ids && (s.reqs[r].id in s.recs ==> s.recs[s.reqs[r].id].egress.Some?))
  }

  lemma FoundAdvance(s: State, r: ReqId, q: ReqId)
    requires r in s.reqs && FoundOk(s, r) && FoundOk(s, q) && forall id :: RecOk(s, id)
    ensures FoundOk(Advance(s, r), q)
  {
    if q in s.reqs && s.reqs[q].StartedFound? { RecAdvance(s, r, s.reqs[q].id); }
    if s.reqs[r].StartedFound? { assert RecOk(s, s.reqs[r].id); }
    assert q != r && q in Advance(s, r).reqs ==> q in s.reqs && Advance(s, r).reqs[q] == s.reqs[q];
  }

  lemma FoundNext(s: State, e: Event, q: ReqId)
    requires (forall r :: FoundOk(s, r)) && forall id :: RecOk(s, id)
    ensures FoundOk(Next(s, e), q)
  {
    if e.Step? {
      if e.r in s.reqs { FoundAdvance(s, e.r, q); }
    } else if e.Lookup? {
      FoundLookup(s, e.r, e.id, q);
    } else if q in Next(s, e).reqs {
      PhasesKept(s, e, q);
      if q in s.reqs && s.reqs[q].StartedFound? { FoundTable(s, e, s.reqs[q].id); }
    }
  }

  lemma FoundLookup(s: State, r: ReqId, id: RecId, q: ReqId)
    requires FoundOk(s, q) && RecOk(s, id)
    ensures FoundOk(Next(s, Lookup(r, id)), q)
  {
  }

  lemma FoundTable(s: State, e: Event, id: RecId)
    requires !e.Step? && RecOk(s, id) && id in s.ids && (id in s.recs ==> s.recs[id].egress.Some?)
    ensures id in Next(s, e).ids && (id in Next(s, e).recs ==> Next(s, e).recs[id].egress.Some?)
  {
  }

  lemma {:induction false} FoundRun(es: seq<Event>, q: ReqId)
    ensures FoundOk(Run(INIT, es), q)
  {
    if es != [] {
      var s := Run(INIT, es[..|es| - 1]);
      forall r ensures FoundOk(s, r) { FoundRun(es[..|es| - 1], r); }
      JobInvRun(es[..|es| - 1]);
      FoundNext(s, es[|es| - 1], q);
    }
  }

  // What an undisturbed egress_started would do: start a pending recording that
  // already has its egress.
  lemma {:induction false} EgressStartedAlone(s: State, r: ReqId, egress: EgressId, id: RecId)
    requires r !in s.reqs && id in s.recs && s.recs[id].egress == Some(egress)
    ensures var s' := Next(Next(Next(Next(s, StartedArrives(r, egress)), Lookup(r, id)), Step(r)), Step(r));
            s'.recs == if s.recs[id].status == Pending then s.recs[id := Recording(Some(egress), Started, true)] else s.recs
  {
    var s2 := Next(Next(s, StartedArrives(r, egress)), Lookup(r, id));
    assert s2.reqs[r] == StartedFound(id) && s2.recs == s.recs;
    var s3 := Next(s2, Step(r));
    assert s3.reqs[r] == if s.recs[id].status == Pending then StartedWon(id) else Done;
  }

  // An egress_started event never changes a recording: it finds the recording by
  // its egress id, which is set only together with the started status, while the
  // update wants the pending one.
  lemma {:induction false} EgressStartedChangesNothing(es: seq<Event>, r: ReqId)
    requires var s := Run(INIT, es); r in s.reqs && (s.reqs[r].StartedHook? || s.reqs[r].StartedFound? || s.reqs[r].StartedWon?)
    ensures var s := Run(INIT, es); Next(s, Step(r)).recs == s.recs
  {
    var s := Run(INIT, es);
    FoundRun(es, r);
    JobInvRun(es);
    if s.reqs[r].StartedFound? { assert RecOk(s, s.reqs[r].id); }
  }

  // An undisturbed worker completes a recording exactly when it is processing and
  // its download and storage succeed; it fails it when they do not.
  lemma WorkAlone(s: State, r: ReqId, id: RecId, ok: bool)
    requires r !in s.reqs && s.jobs[id] > 0 && id in s.recs
    ensures var s' := Next(Next(Next(s, TakeJob(r, id)), Step(r)), if ok then Step(r) else WorkerFails(r));
            s'.recs == (if s.recs[id].status == Processing
                        then s.recs[id := s.recs[id].(status := if ok then Completed else Failed)] else s.recs)
  {
    var s2 := Next(Next(s, TakeJob(r, id)), Step(r));
    assert s2.reqs[r] == if s.recs[id].status == Processing then Working(id) else Done;
  }
}
