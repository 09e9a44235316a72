// Access-token revocation: a memory map, lost on restart, over a durable table;
// both are pruned. Tokens are keyed by their SHA-256 hash, taken as injective.
module Revocation {
  import opened Clock
  import opened Options
  import opened UserStore

  // signed covers the signature, issuer and audience checks. exp is whole seconds
  // in the claim, expressed here in nanoseconds like every clock reading.
  datatype Jwt = Jwt(id: nat, signed: bool, purpose: string, exp: Time)

  datatype TokenError = InvalidToken | PurposeNotAllowed | Revoked

  datatype Tiers = Tiers(memory: map<Jwt, Time>, durable: map<Jwt, Time>)

  // parseTokenUnchecked: valid strictly before exp.
  predicate Parses(t: Jwt, at: Time) { t.signed && at < t.exp }

  function RevokeIn(c: Tiers, t: Jwt, at: Time): Tiers {
    if !Parses(t, at) then c
    else Tiers(c.memory[t := t.exp], if t in c.durable then c.durable else c.durable[t := t.exp])
  }

  // The memory map and the table each read their own clock.
  function PruneIn(c: Tiers, at: Time, at2: Time): Tiers {
    Tiers(Unexpired(c.memory, at), Unexpired(c.durable, at2))
  }

  predicate RevokedIn(memory: map<Jwt, Time>, durable: map<Jwt, Time>, t: Jwt, at: Time, at2: Time) {
    (t in memory && at < memory[t]) || (t in durable && durable[t] > at2)
  }

  // ValidateToken, reading the clock once to parse and once per tier; the tiers
  // may have moved on between the two reads.
  function Verdict(memory: map<Jwt, Time>, durable: map<Jwt, Time>, t: Jwt, t0: Time, t1: Time, t2: Time): Result<Jwt, TokenError> {
    if !Parses(t, t0) then Err(InvalidToken)
    else if t.purpose != "" then Err(PurposeNotAllowed)
    else if RevokedIn(memory, durable, t, t1, t2) then Err(Revoked)
    else Ok(t)
  }

  // The same decision with a set of revoked tokens that only grows.
  function GrowOnlyVerdict(revoked: set<Jwt>, t: Jwt, at: Time): Result<Jwt, TokenError> {
    if !Parses(t, at) then Err(InvalidToken)
    else if t.purpose != "" then Err(PurposeNotAllowed)
    else if t in revoked then Err(Revoked)
    else Ok(t)
  }

  datatype Op = Revoke(t: Jwt) | Prune(lag: nat) | Restart | Wait(d: nat)

  datatype World = World(tiers: Tiers, now: Time, revoked: set<Jwt>)

  function Apply(w: World, op: Op): World {
    match op
    case Revoke(t) => w.(tiers := RevokeIn(w.tiers, t, w.now), revoked := if Parses(t, w.now) then w.revoked + {t} else w.revoked)
    case Prune(lag) => w.(tiers := PruneIn(w.tiers, w.now, w.now + lag), now := w.now + lag)
    case Restart => w.(tiers := w.tiers.(memory := map[]))
    case Wait(d) => w.(now := w.now + d)
  }

  function Run(w: World, ops: seq<Op>): World {
    if ops == [] then w else Apply(Run(w, ops[..|ops| - 1]), ops[|ops| - 1])
  }

  function Start(now: Time): World { World(Tiers(map[], map[]), now, {}) }

  ghost predicate Consistent(w: World) {
    (forall t :: t in w.tiers.memory ==> w.tiers.memory[t] == t.exp && t in w.revoked) &&
    (forall t :: t in w.tiers.durable ==> w.tiers.durable[t] == t.exp && t in w.revoked) &&
    (forall t :: t in w.revoked ==> t in w.tiers.durable || t.exp < w.now)
  }

  lemma {:induction false} RunConsistent(w: World, ops: seq<Op>)
    requires Consistent(w)
    ensures Consistent(Run(w, ops)) && w.now <= Run(w, ops).now && w.revoked <= Run(w, ops).revoked
  {
    if ops != [] {
      RunConsistent(w, ops[..|ops| - 1]);
    }
  }

  lemma {:induction false} RunConcat(w: World, a: seq<Op>, b: seq<Op>)
    ensures Run(w, a + b) == Run(Run(w, a), b)
  {
    if b == [] {
      assert a + b == a;
    } else {
      assert (a + b)[..|a + b| - 1] == a + b[..|b| - 1];
      RunConcat(w, a, b[..|b| - 1]);
    }
  }

  // Pruning and restarts are invisible: with one clock reading, ValidateToken
  // answers as the grow-only set does, after every run.
  lemma VerdictMatchesGrowOnly(now: Time, ops: seq<Op>, t: Jwt)
    ensures var w := Run(Start(now), ops);
            Verdict(w.tiers.memory, w.tiers.durable, t, w.now, w.now, w.now) == GrowOnlyVerdict(w.revoked, t, w.now)
  {
    RunConsistent(Start(now), ops);
  }

  // Whatever is still unexpired was unexpired when it was revoked.
  lemma {:induction false} RevokedRun(now: Time, ops: seq<Op>, t: Jwt)
    requires Run(Start(now), ops).now < t.exp
    ensures t in Run(Start(now), ops).revoked <==> t.signed && Revoke(t) in ops
  {
    if ops != [] {
      var before, op := ops[..|ops| - 1], ops[|ops| - 1];
      assert ops == before + [op];
      assert Run(Start(now), before).now <= Run(Start(now), ops).now;
      RevokedRun(now, before, t);
    }
  }

  // After every run, an access token passes exactly when it is signed, unexpired,
  // without a purpose and was never revoked; otherwise the first reason counts.
  lemma AccessIff(now: Time, ops: seq<Op>, t: Jwt)
    ensures var w := Run(Start(now), ops);
            var v := Verdict(w.tiers.memory, w.tiers.durable, t, w.now, w.now, w.now);
            (v == Ok(t) <==> t.signed && w.now < t.exp && t.purpose == "" && Revoke(t) !in ops) &&
            (v == Err(InvalidToken) <==> !t.signed || t.exp <= w.now) &&
            (v == Err(PurposeNotAllowed) <==> t.signed && w.now < t.exp && t.purpose != "") &&
            (v == Err(Revoked) <==> t.signed && w.now < t.exp && t.purpose == "" && Revoke(t) in ops)
  {
    var w := Run(Start(now), ops);
    VerdictMatchesGrowOnly(now, ops, t);
    if w.now < t.exp { RevokedRun(now, ops, t); }
  }

  // A restart empties the memory tier alone; a prune takes from each tier what had
  // expired at that tier's clock reading.
  lemma TiersAfter(w: World, lag: nat, t: Jwt)
    ensures Apply(w, Restart).tiers == Tiers(map[], w.tiers.durable)
    ensures t in Apply(w, Prune(lag)).tiers.memory <==> t in w.tiers.memory && w.now <= w.tiers.memory[t]
    ensures t in Apply(w, Prune(lag)).tiers.durable <==> t in w.tiers.durable && w.now + lag <= w.tiers.durable[t]
  {
  }

  // A call that overlaps other operations, with a clock reading per tier, accepts
  // a token revoked before it began exactly when the token expired during the
  // call: by the memory check if the memory map still knows it, else by the
  // table check.
  lemma OverlappingVerdict(now: Time, pre: seq<Op>, mid: seq<Op>, mid2: seq<Op>, t: Jwt)
    requires t in Run(Start(now), pre).revoked
    ensures var w0 := Run(Start(now), pre);
            var w1 := Run(Start(now), pre + mid);
            var w2 := Run(Start(now), pre + mid + mid2);
            Verdict(w1.tiers.memory, w2.tiers.durable, t, w0.now, w1.now, w2.now).Ok? <==>
            Parses(t, w0.now) && t.purpose == "" && t.exp <= (if t in w1.tiers.memory then w1.now else w2.now)
  {
    RunConcat(Start(now), pre, mid);
    RunConcat(Start(now), pre + mid, mid2);
    RunConsistent(Start(now), pre);
    RunConsistent(Run(Start(now), pre), mid);
    RunConsistent(Run(Start(now), pre + mid), mid2);
  }

  class RevokedTokens {
    var memory: map<Jwt, Time>
    var durable: map<Jwt, Time>

    ghost function Contents(): Tiers reads this { Tiers(memory, durable) }

    constructor ()
      ensures Contents() == Tiers(map[], map[])
    {
      memory, durable := map[], map[];
    }

    method RevokeAccessToken(t: Jwt, at: Time)
      modifies this
      ensures Contents() == RevokeIn(old(Contents()), t, at)
    {
      if !Parses(t, at) { return; }
      memory := memory[t := t.exp];
      if t !in durable { durable := durable[t := t.exp]; }
    }

    // The memory map is walked key by key, in no particular order.
    method PruneRevokedTokens(at: Time, at2: Time)
      modifies this
      ensures Contents() == PruneIn(old(Contents()), at, at2)
      ensures forall t :: t in memory <==> t in old(memory) && at <= old(memory)[t]
      ensures forall t :: t in durable <==> t in old(durable) && at2 <= old(durable)[t]
    {
      var todo := memory.Keys;
      while todo != {}
        invariant todo <= memory.Keys
        invariant forall t :: t in old(memory) && (t in todo || !(old(memory)[t] < at)) ==> t in memory
        invariant forall t :: t in memory ==> t in old(memory) && memory[t] == old(memory)[t] && (t in todo || !(memory[t] < at))
        invariant durable == old(durable)
        decreases |todo|
      {
        var t :| t in todo;
        todo := todo - {t};
        if memory[t] < at { memory := memory - {t}; }
      }
      durable := map t | t in durable && !(durable[t] < at2) :: durable[t];
    }

    method Restarted()
      modifies this
      ensures Contents() == old(Contents()).(memory := map[])
    {
      memory := map[];
    }

    method ValidateToken(t: Jwt, t0: Time, t1: Time, t2: Time) returns (r: Result<Jwt, TokenError>)
      ensures r == Verdict(memory, durable, t, t0, t1, t2)
    {
      if !Parses(t, t0) { return Err(InvalidToken); }
      if t.purpose != "" { return Err(PurposeNotAllowed); }
      if t in memory && t1 < memory[t] { return Err(Revoked); }
      if t in durable && durable[t] > t2 { return Err(Revoked); }
      return Ok(t);
    }
  }
}
