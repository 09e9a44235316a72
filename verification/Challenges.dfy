// The passkey challenge store: sequential calls first, then calls in flight
// together. GetAndVerify reads under the lock, checks after releasing it, and
// takes the lock again to delete an expired entry.
module Challenges {
  import opened Clock
  import opened Options

  datatype Entry = Entry(challenge: string, userId: string, extra: map<string, string>, expiresAt: Time)

  type Store = map<string, Entry>

  // GetAndVerify's answer. An entry is still good at the very instant it expires.
  function Answer(store: Store, key: string, expected: string, now: Time): Option<Entry> {
    if key !in store || now > store[key].expiresAt then None
    else if expected != "" && store[key].challenge != expected then None
    else Some(store[key])
  }

  // store is the never-purged store less some expired entries.
  ghost predicate Kept(store: Store, unpurged: Store, clock: Time) {
    (forall k :: k in store ==> k in unpurged && store[k] == unpurged[k]) &&
    (forall k :: k in unpurged && k !in store ==> unpurged[k].expiresAt < clock)
  }

  class ChallengeStore {
    var store: Store
    const ttl: Time
    // What the store would hold if only Delete calls removed entries.
    ghost var unpurged: Store
    ghost var clock: Time

    ghost predicate Valid() reads this { Kept(store, unpurged, clock) }

    constructor (ttl: Time)
      ensures Valid() && this.ttl == ttl && unpurged == map[]
    {
      this.ttl := ttl;
      store, unpurged, clock := map[], map[], 0;
      new;
    }

    method Set(key: string, challenge: string, userId: string, extra: map<string, string>, now: Time)
      requires Valid() && clock <= now
      modifies this
      ensures Valid() && clock == now
      ensures unpurged == old(unpurged)[key := Entry(challenge, userId, extra, now + ttl)]
    {
      store := store[key := Entry(challenge, userId, extra, now + ttl)];
      unpurged, clock := unpurged[key := Entry(challenge, userId, extra, now + ttl)], now;
    }

    // Purging changes no answer.
    method GetAndVerify(key: string, expected: string, now: Time) returns (r: Option<Entry>)
      requires Valid() && clock <= now
      modifies this`store, this`clock
      ensures Valid() && clock == now
      ensures r == Answer(unpurged, key, expected, now)
      ensures r.Some? <==> key in unpurged && now <= unpurged[key].expiresAt &&
                           (expected == "" || expected == unpurged[key].challenge)
      ensures r.Some? ==> r.value == unpurged[key]
    {
      clock := now;
      if key !in store { return None; }
      var entry := store[key];
      if now > entry.expiresAt {
        store := store - {key};
        return None;
      }
      if expected != "" && entry.challenge != expected { return None; }
      return Some(entry);
    }

    method Delete(key: string)
      requires Valid()
      modifies this
      ensures Valid() && clock == old(clock)
      ensures unpurged == old(unpurged) - {key}
    {
      store, unpurged := store - {key}, unpurged - {key};
    }

    method PurgeExpired(now: Time)
      requires Valid() && clock <= now
      modifies this`store, this`clock
      ensures Valid() && clock == now
      ensures forall k :: k in store <==> k in old(store) && now <= old(store)[k].expiresAt
    {
      clock := now;
      var todo := store.Keys;
      while todo != {}
        invariant todo <= store.Keys && clock == now && Kept(store, unpurged, now)
        invariant forall k :: k in old(store) && (k in todo || now <= old(store)[k].expiresAt) ==> k in store
        invariant forall k :: k in store ==> k in old(store) && store[k] == old(store)[k] && (k in todo || now <= store[k].expiresAt)
        decreases |todo|
      {
        var k :| k in todo;
        todo := todo - {k};
        if now > store[k].expiresAt { store := store - {k}; }
      }
    }
  }

  // ---- calls in flight together ----

  type ReqId = nat

  // serial numbers the Set calls of a run.
  datatype Held = Held(entry: Entry, serial: nat)

  datatype Phase =
    | Reading(key: string, expected: string)
    // after the read; latest is the last Set of the key at that moment
    | Checking(key: string, expected: string, held: Held, latest: Held)
    | Removing(key: string, held: Held) // found expired, about to Delete
    | Done

  // One successful return, with the call's arguments.
  datatype Success = Success(r: ReqId, key: string, expected: string, held: Held, latestAtRead: Held, checkedAt: Time)

  datatype State = State(
    now: Time,
    ttl: Time,
    store: map<string, Held>,
    reqs: map<ReqId, Phase>,
    latest: map<string, Held>, // the last Set of each key, deleted or not
    sets: nat,
    successes: set<Success>)

  datatype Event =
    | Tick(d: nat)
    | SetCall(key: string, challenge: string, userId: string, extra: map<string, string>)
    | DeleteCall(key: string)
    | Purge
    | BeginGet(r: ReqId, key: string, expected: string)
    | Step(r: ReqId)

  function Init(now: Time, ttl: Time): State { State(now, ttl, map[], map[], map[], 0, {}) }

  function Goto(s: State, r: ReqId, p: Phase): State { s.(reqs := s.reqs[r := p]) }

  function Advance(s: State, r: ReqId): State
    requires r in s.reqs
  {
    match s.reqs[r]
    case Reading(key, expected) =>
      if key in s.store && key in s.latest then Goto(s, r, Checking(key, expected, s.store[key], s.latest[key]))
      else Goto(s, r, Done)
    case Checking(key, expected, held, latest) =>
      if s.now > held.entry.expiresAt then Goto(s, r, Removing(key, held))
      else if expected != "" && held.entry.challenge != expected then Goto(s, r, Done)
      else Goto(s, r, Done).(successes := s.successes + {Success(r, key, expected, held, latest, s.now)})
    case Removing(key, held) => Goto(s, r, Done).(store := s.store - {key})
    case Done => s
  }

  function Next(s: State, e: Event): State {
    match e
    case Tick(d) => s.(now := s.now + d)
    case SetCall(key, challenge, userId, extra) =>
      var h := Held(Entry(challenge, userId, extra, s.now + s.ttl), s.sets);
      s.(store := s.store[key := h], latest := s.latest[key := h], sets := s.sets + 1)
    case DeleteCall(key) => s.(store := s.store - {key})
    case Purge => s.(store := map k | k in s.store && !(s.now > s.store[k].entry.expiresAt) :: s.store[k])
    case BeginGet(r, key, expected) => if r in s.reqs then s else Goto(s, r, Reading(key, expected))
    case Step(r) => if r in s.reqs then Advance(s, r) else s
  }

  function Run(s: State, es: seq<Event>): State {
    if es == [] then s else Next(Run(s, es[..|es| - 1]), es[|es| - 1])
  }

  ghost predicate Inv(s: State) {
    (forall k :: k in s.store ==> k in s.latest && s.store[k] == s.latest[k]) &&
    (forall k :: k in s.latest ==> s.latest[k].serial < s.sets) &&
    (forall r :: r in s.reqs && s.reqs[r].Checking? ==>
       s.reqs[r].held == s.reqs[r].latest && Reread(s, s.reqs[r].key, s.reqs[r].held)) &&
    (forall r :: r in s.reqs && s.reqs[r].Removing? ==>
       s.now > s.reqs[r].held.entry.expiresAt && Reread(s, s.reqs[r].key, s.reqs[r].held)) &&
    (forall x :: x in s.successes ==>
       x.held == x.latestAtRead && x.checkedAt <= x.held.entry.expiresAt &&
       (x.expected == "" || x.expected == x.held.entry.challenge))
  }

  // The key still has the Set that was read, or a later one.
  ghost predicate Reread(s: State, key: string, held: Held) {
    key in s.latest && (s.latest[key] == held || s.latest[key].serial > held.serial) && held.serial < s.sets
  }

  lemma InvAdvance(s: State, r: ReqId)
    requires Inv(s) && r in s.reqs
    ensures Inv(Advance(s, r))
  {
    match s.reqs[r]
    case Reading(key, expected) =>
    case Checking(key, expected, held, latest) =>
    case Removing(key, held) =>
    case Done =>
  }

  lemma InvSet(s: State, key: string, h: Held)
    requires Inv(s) && h.serial == s.sets
    ensures Inv(s.(store := s.store[key := h], latest := s.latest[key := h], sets := s.sets + 1))
  {
    var s' := s.(store := s.store[key := h], latest := s.latest[key := h], sets := s.sets + 1);
    assert forall k, held :: Reread(s, k, held) ==> Reread(s', k, held);
  }

  lemma {:induction false} InvNext(s: State, e: Event)
    requires Inv(s)
    ensures Inv(Next(s, e))
  {
    match e
    case Step(r) => if r in s.reqs { InvAdvance(s, r); }
    case SetCall(key, challenge, userId, extra) =>
      InvSet(s, key, Held(Entry(challenge, userId, extra, s.now + s.ttl), s.sets));
    case _ =>
      assert forall k, held :: Reread(s, k, held) ==> Reread(Next(s, e), k, held);
  }

  lemma {:induction false} InvRun(now: Time, ttl: Time, es: seq<Event>)
    ensures Inv(Run(Init(now, ttl), es))
  {
    if es != [] {
      InvRun(now, ttl, es[..|es| - 1]);
      InvNext(Run(Init(now, ttl), es[..|es| - 1]), es[|es| - 1]);
    }
  }

  // Under every interleaving, a successful GetAndVerify returns the latest Set of
  // its key as of its read, unexpired at its check, with the challenge it expected.
  lemma SuccessIsLatestAndFresh(now: Time, ttl: Time, es: seq<Event>, x: Success)
    requires x in Run(Init(now, ttl), es).successes
    ensures x.held == x.latestAtRead && x.checkedAt <= x.held.entry.expiresAt
    ensures x.expected == "" || x.expected == x.held.entry.challenge
  {
    InvRun(now, ttl, es);
  }

  function Get(s: State, r: ReqId, key: string, expected: string): State {
    Next(Next(Next(Next(s, BeginGet(r, key, expected)), Step(r)), Step(r)), Step(r))
  }

  // Undisturbed, a call succeeds exactly when the key holds an unexpired entry
  // and either nothing is expected or it is that entry's challenge.
  lemma GetAlone(s: State, r: ReqId, key: string, expected: string)
    requires r !in s.reqs && (key in s.store ==> key in s.latest)
    ensures var s' := Get(s, r, key, expected);
            s'.successes ==
              if key in s.store && s.now <= s.store[key].entry.expiresAt &&
                 (expected == "" || expected == s.store[key].entry.challenge)
              then s.successes + {Success(r, key, expected, s.store[key], s.latest[key], s.now)}
              else s.successes
    ensures Get(s, r, key, expected).reqs == s.reqs[r := Done]
    ensures Get(s, r, key, expected).store ==
            if key in s.store && s.now > s.store[key].entry.expiresAt then s.store - {key} else s.store
  {
    var s1 := Next(s, BeginGet(r, key, expected));
    assert s1.reqs[r] == Reading(key, expected);
    var s2 := Next(s1, Step(r));
    if key in s.store {
      assert s2.reqs[r] == Checking(key, expected, s.store[key], s.latest[key]);
    } else {
      assert s2.reqs[r] == Done;
    }
  }

  // After a Delete a key has nothing to answer with until it is set again.
  lemma DeleteThenGet(s: State, r: ReqId, key: string, expected: string)
    requires r !in s.reqs
    ensures Get(Next(s, DeleteCall(key)), r, key, expected).successes == s.successes
    ensures forall k :: k != key && k in s.store ==> k in Next(s, DeleteCall(key)).store && Next(s, DeleteCall(key)).store[k] == s.store[k]
  {
    GetAlone(Next(s, DeleteCall(key)), r, key, expected);
  }

  // A purge changes no answer.
  lemma PurgeInvisible(s: State, r: ReqId, key: string, expected: string)
    requires r !in s.reqs && (key in s.store ==> key in s.latest)
    ensures Get(Next(s, Purge), r, key, expected).successes == Get(s, r, key, expected).successes
    ensures forall k :: k in Next(s, Purge).store <==> k in s.store && s.now <= s.store[k].entry.expiresAt
  {
    GetAlone(s, r, key, expected);
    GetAlone(Next(s, Purge), r, key, expected);
  }

  // A challenge is good for ttl after its Set, and the answer carries what was
  // set; other keys keep their entries.
  lemma SetThenGet(s: State, key: string, challenge: string, userId: string, extra: map<string, string>, d: nat, r: ReqId, expected: string)
    requires r !in s.reqs
    ensures var s' := Next(Next(s, SetCall(key, challenge, userId, extra)), Tick(d));
            var held := Held(Entry(challenge, userId, extra, s.now + s.ttl), s.sets);
            Get(s', r, key, expected).successes ==
              if d <= s.ttl && (expected == "" || expected == challenge)
              then s.successes + {Success(r, key, expected, held, held, s.now + d)}
              else s.successes
    ensures var s' := Next(Next(s, SetCall(key, challenge, userId, extra)), Tick(d));
            forall k :: k != key ==> (k in s'.store <==> k in s.store) && (k in s.store ==> s'.store[k] == s.store[k])
  {
    GetAlone(Next(Next(s, SetCall(key, challenge, userId, extra)), Tick(d)), r, key, expected);
  }

  // Exactly when the delete of an expired read takes away something else: when
  // the key was set again after that read and is still there.
  lemma ExpiredDeleteHitsNewEntryIff(now: Time, ttl: Time, es: seq<Event>, r: ReqId)
    requires var s := Run(Init(now, ttl), es); r in s.reqs && s.reqs[r].Removing? && s.reqs[r].key in s.store
    ensures var s := Run(Init(now, ttl), es); var Removing(key, held) := s.reqs[r];
            key !in Next(s, Step(r)).store && key in s.latest &&
            (s.store[key] != held <==> s.latest[key].serial > held.serial) &&
            (s.store[key] == held ==> s.now > s.store[key].entry.expiresAt)
  {
    InvRun(now, ttl, es);
  }

  // And it does happen: a challenge set between the read and the delete is lost
  // while still fresh, whatever came before.
  lemma FreshChallengeCanBeLost(s: State, r: ReqId, key: string, challenge: string)
    requires s.ttl >= 0 && r !in s.reqs && key in s.store && key in s.latest && s.now > s.store[key].entry.expiresAt
    ensures var s1 := Next(Next(Next(s, BeginGet(r, key, "")), Step(r)), SetCall(key, challenge, "", map[]));
            var s2 := Next(Next(s1, Step(r)), Step(r));
            key in s1.store && s2.now <= s1.store[key].entry.expiresAt && key !in s2.store
  {
    var held := s.store[key];
    var s0 := Next(Next(s, BeginGet(r, key, "")), Step(r));
    assert s0.reqs[r] == Checking(key, "", held, s.latest[key]);
    var s1 := Next(s0, SetCall(key, challenge, "", map[]));
    assert s1.reqs[r] == Checking(key, "", held, s.latest[key]);
    assert Next(s1, Step(r)).reqs[r] == Removing(key, held);
  }
}
