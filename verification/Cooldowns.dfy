// The per-key cooldown cache. Every clock parameter is one time.Now(), taken in
// the order the source reads it.
module Cooldowns {
  import opened Clock

  // The cache if nothing were ever purged: the expiry each key was last given.
  type Expiries = map<string, Time>

  // Whether a key may act at this instant, by its last expiry.
  predicate Allowed(expiries: Expiries, key: string, now: Time) {
    !(key in expiries && now < expiries[key])
  }

  function TimeLeft(expiries: Expiries, key: string, now: Time): (d: Time)
    ensures d >= 0 && (d == 0 <==> Allowed(expiries, key, now))
  {
    if key in expiries && expiries[key] - now > 0 then expiries[key] - now else 0
  }

  // Successive grants of one key, as the instants their cooldowns were started.
  predicate Spaced(grants: seq<Time>, ttl: Time) {
    forall i :: 0 <= i < |grants| - 1 ==> grants[i] + ttl <= grants[i + 1]
  }

  // Rate bound: k grants inside a window of length T satisfy (k-1)*ttl <= T.
  lemma {:induction false} RateBound(grants: seq<Time>, ttl: Time, i: nat, j: nat)
    requires Spaced(grants, ttl) && i <= j < |grants|
    ensures (j - i) * ttl <= grants[j] - grants[i]
  {
    if i < j {
      RateBound(grants, ttl, i, j - 1);
      assert (j - i) * ttl == (j - 1 - i) * ttl + ttl;
    }
  }

  function GrantsOf(grants: map<string, seq<Time>>, key: string): seq<Time> {
    if key in grants then grants[key] else []
  }

  function Last(grants: seq<Time>): Time
    requires grants != []
  {
    grants[|grants| - 1]
  }

  // The two answers in terms of the grants alone.
  lemma AnswersFromGrants(unpurged: Expiries, grants: map<string, seq<Time>>, ttl: Time, key: string, now: Time)
    requires Recorded(unpurged, grants, ttl)
    ensures Allowed(unpurged, key, now) <==> GrantsOf(grants, key) == [] || Last(GrantsOf(grants, key)) + ttl <= now
    ensures TimeLeft(unpurged, key, now) ==
            if GrantsOf(grants, key) == [] || Last(GrantsOf(grants, key)) + ttl <= now then 0
            else Last(GrantsOf(grants, key)) + ttl - now
  {
    assert key in grants <==> key in unpurged;
  }

  lemma OneMoreGrant(grants: seq<Time>, ttl: Time, at: Time)
    requires Spaced(grants, ttl) && (grants != [] ==> grants[|grants| - 1] + ttl <= at)
    ensures Spaced(grants + [at], ttl)
  {
  }

  // The grants of each key are spaced, and the last one set its expiry.
  ghost predicate Recorded(unpurged: Expiries, grants: map<string, seq<Time>>, ttl: Time) {
    grants.Keys == unpurged.Keys &&
    forall k :: k in grants ==>
      grants[k] != [] && Spaced(grants[k], ttl) && unpurged[k] == grants[k][|grants[k]| - 1] + ttl
  }

  // items is the never-purged cache less some expired entries.
  ghost predicate Kept(items: Expiries, unpurged: Expiries, clock: Time) {
    (forall k :: k in items ==> k in unpurged && items[k] == unpurged[k]) &&
    (forall k :: k in unpurged && k !in items ==> unpurged[k] < clock)
  }

  lemma RecordGrant(unpurged: Expiries, grants: map<string, seq<Time>>, ttl: Time, key: string, at: Time)
    requires Recorded(unpurged, grants, ttl) && (key in unpurged ==> unpurged[key] <= at)
    ensures Recorded(unpurged[key := at + ttl], grants[key := GrantsOf(grants, key) + [at]], ttl)
  {
    OneMoreGrant(GrantsOf(grants, key), ttl, at);
  }

  lemma KeptGrant(items: Expiries, unpurged: Expiries, clock: Time, later: Time, key: string, expiry: Time)
    requires Kept(items, unpurged, clock) && clock <= later
    ensures Kept(items[key := expiry], unpurged[key := expiry], later)
  {
  }

  lemma KeptLater(items: Expiries, unpurged: Expiries, clock: Time, later: Time)
    requires Kept(items, unpurged, clock) && clock <= later
    ensures Kept(items, unpurged, later)
  {
  }

  // Purging is invisible to every question asked from now on.
  lemma KeptAnswers(items: Expiries, unpurged: Expiries, clock: Time, key: string, now: Time)
    requires Kept(items, unpurged, clock) && clock <= now
    ensures Allowed(items, key, now) == Allowed(unpurged, key, now)
    ensures TimeLeft(items, key, now) == TimeLeft(unpurged, key, now)
  {
  }

  lemma KeptPurge(items: Expiries, unpurged: Expiries, clock: Time, now: Time)
    requires Kept(items, unpurged, clock) && clock <= now
    ensures Kept(Unexpired(items, now), unpurged, now)
  {
  }

  class CooldownCache {
    var items: Expiries
    const ttl: Time
    // History: the never-purged cache, the grants of each key, the latest clock reading.
    ghost var unpurged: Expiries
    ghost var grants: map<string, seq<Time>>
    ghost var clock: Time

    // Purged entries are expired ones.
    ghost predicate Valid() reads this {
      Kept(items, unpurged, clock) && Recorded(unpurged, grants, ttl)
    }

    constructor (ttl: Time)
      ensures Valid() && this.ttl == ttl && unpurged == map[] && grants == map[]
    {
      this.ttl := ttl;
      items, unpurged, grants, clock := map[], map[], map[], 0;
      new;
    }

    method Purge(now: Time)
      requires Valid() && clock <= now
      modifies this`items, this`clock
      ensures Valid() && clock == now
      ensures items == Unexpired(old(items), now)
      ensures forall k :: k in items <==> k in old(items) && now <= old(items)[k]
    {
      KeptPurge(items, unpurged, clock, now);
      clock := now;
      var todo := items.Keys;
      while todo != {}
        invariant todo <= items.Keys && clock == now
        invariant forall k :: k in items <==> k in old(items) && (k in todo || !(now > old(items)[k]))
        invariant forall k :: k in items ==> items[k] == old(items)[k]
        decreases |todo|
      {
        var k :| k in todo;
        todo := todo - {k};
        if now > items[k] { items := items - {k}; }
      }
      assert items == Unexpired(old(items), now);
    }

    // Starts the cooldown of a key that may act.
    method Start(key: string, at: Time)
      requires Valid() && clock <= at && (key in unpurged ==> unpurged[key] <= at)
      modifies this
      ensures Valid() && clock == at
      ensures unpurged == old(unpurged)[key := at + ttl]
      ensures grants == old(grants)[key := GrantsOf(old(grants), key) + [at]]
    {
      KeptGrant(items, unpurged, clock, at, key, at + ttl);
      RecordGrant(unpurged, grants, ttl, key, at);
      items, clock := items[key := at + ttl], at;
      unpurged, grants := unpurged[key := at + ttl], grants[key := GrantsOf(grants, key) + [at]];
    }

    // Allow once the lock is held and the purge is done.
    method AllowPurged(key: string, checkNow: Time, setNow: Time) returns (ok: bool)
      requires Valid() && clock <= checkNow <= setNow
      modifies this
      ensures Valid() && clock == setNow
      ensures ok == Allowed(old(unpurged), key, checkNow)
      ensures unpurged == if ok then old(unpurged)[key := setNow + ttl] else old(unpurged)
      ensures grants == if ok then old(grants)[key := GrantsOf(old(grants), key) + [setNow]] else old(grants)
    {
      KeptAnswers(items, unpurged, clock, key, checkNow);
      if key in items && checkNow < items[key] {
        KeptLater(items, unpurged, clock, setNow);
        clock := setNow;
        return false;
      }
      Start(key, setNow);
      return true;
    }

    // The answer is the one the never-purged cache gives, and a grant starts at
    // least ttl after the previous grant of its key, or is the first.
    method Allow(key: string, purgeNow: Time, checkNow: Time, setNow: Time) returns (ok: bool)
      requires Valid() && clock <= purgeNow <= checkNow <= setNow
      modifies this
      ensures Valid() && clock == setNow
      ensures ok == Allowed(old(unpurged), key, checkNow)
      ensures ok <==> GrantsOf(old(grants), key) == [] || Last(GrantsOf(old(grants), key)) + ttl <= checkNow
      ensures unpurged == if ok then old(unpurged)[key := setNow + ttl] else old(unpurged)
      ensures grants == if ok then old(grants)[key := GrantsOf(old(grants), key) + [setNow]] else old(grants)
    {
      AnswersFromGrants(unpurged, grants, ttl, key, checkNow);
      Purge(purgeNow);
      ok := AllowPurged(key, checkNow, setNow);
    }

    method Remaining(key: string, purgeNow: Time, now: Time) returns (d: Time)
      requires Valid() && clock <= purgeNow <= now
      modifies this`items, this`clock
      ensures Valid() && clock == now
      ensures d == TimeLeft(unpurged, key, now)
      ensures GrantsOf(grants, key) == [] || Last(GrantsOf(grants, key)) + ttl <= now ==> d == 0
      ensures GrantsOf(grants, key) != [] && now < Last(GrantsOf(grants, key)) + ttl ==> d == Last(GrantsOf(grants, key)) + ttl - now
    {
      AnswersFromGrants(unpurged, grants, ttl, key, now);
      Purge(purgeNow);
      KeptAnswers(items, unpurged, clock, key, now);
      clock := now;
      if key in items && items[key] - now > 0 { return items[key] - now; }
      return 0;
    }
  }

  // The rate bound for the cache itself: the grants i to j of a key, all inside
  // [from, to], number at most (to - from) / ttl + 1.
  lemma CacheRateBound(cache: CooldownCache, key: string, i: nat, j: nat, from: Time, to: Time)
    requires cache.Valid() && key in cache.grants && i <= j < |cache.grants[key]|
    requires from <= cache.grants[key][i] && cache.grants[key][j] <= to
    ensures (j - i) * cache.ttl <= to - from
  {
    RateBound(cache.grants[key], cache.ttl, i, j);
  }
}
