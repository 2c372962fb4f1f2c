// A node without a database that loads another's snapshot carries on as that node would
// have: every later command and read has the same result.
module Restores {
  import opened Types
  import opened Recency
  import opened PlainMaps
  import opened Machines
  import opened Sessions
  import opened Databases
  import opened WriteThrough
  import opened Snapshots
  import opened RamOnly

  // What a client sees of an event.
  datatype Seen = Done(a: Answer) | Value(v: Option<string>)

  function Outcome(m: Machine, e: Local): Seen {
    match e
    case Logged(user, op) => Done(Machines.Apply(m, user, op).1)
    case LocalRead(user, key, at) => Value(Get(m, user, key, at).1)
  }

  // ------------------------------------------------------------ What can be dumped can be loaded

  ghost predicate AllRestorable(m: Machine) {
    !m.useDb && m.users == map[] && m.rows == map[] && m.capacity >= 1 && forall u :: u in m.stores ==> Restorable(m.stores[u], m.capacity)
  }

  lemma TouchedRestorable(s: Store, capacity: nat, key: string)
    requires Restorable(s, capacity)
    ensures Restorable(s.(cache := Touch(s.cache, key)), capacity)
  {
    hide Keys, Touch, Unique;
    TouchFacts(s.cache, key);
  }

  lemma WarmRestorable(s: Store, capacity: nat, key: string, row: Row)
    requires Restorable(s, capacity) && capacity >= 1 && key != ""
    ensures Restorable(Warm(capacity, s, key, row), capacity)
  {
    hide Keys, Put, Unique;
    PutFacts(capacity, s.cache, key, row.value);
  }

  lemma ForgottenRestorable(s: Store, capacity: nat, key: string)
    requires Restorable(s, capacity)
    ensures Restorable(Forget(s, key), capacity)
  {
    hide Keys, Without, Unique;
    WithoutKeys(s.cache, key);
    WithoutUnique(s.cache, key);
  }

  lemma SweptRestorable(s: Store, capacity: nat, at: int)
    requires Restorable(s, capacity)
    ensures Restorable(SweptStore(s, at), capacity)
  {
    hide Keys, Keep, Unique;
    KeepUnique(s.cache, Keys(s.cache) - ExpiredKeys(s, at));
  }

  lemma LookupRestorable(m: Machine, user: string, key: string)
    requires AllRestorable(m) && user in m.stores
    ensures AllRestorable(Lookup(m, user, key).0) && Lookup(m, user, key).0.stores.Keys == m.stores.Keys
  {
    hide Restorable, Touch, Find, Keys;
    TouchedRestorable(m.stores[user], m.capacity, key);
  }

  lemma NewRestorable(hash: string, capacity: nat)
    ensures Restorable(Store(hash, [], map[]), capacity)
  {
  }

  // Whatever is committed and read, the next snapshot can be loaded.
  lemma RestorableStays(m: Machine, e: Local)
    requires AllRestorable(m)
    ensures AllRestorable(Step(m, e)) && Step(m, e).capacity == m.capacity
  {
    hide Restorable, Lookup, Warm, Forget, SweptStore, WithExpiry, SweptPlaces;
    match e
    case LocalRead(user, key, at) =>
      if user in m.stores {
        LookupRestorable(m, user, key);
        LookupCapacity(m, user, key);
      }
    case Logged(user, op) =>
      if user in m.stores && !op.Sweep? {
        CommandRestorable(m, user, op);
      } else if op.Sweep? {
        forall u | u in m.stores
          ensures Restorable(SweptStore(m.stores[u], op.now), m.capacity)
        {
          SweptRestorable(m.stores[u], m.capacity, op.now);
        }
      } else if op.SignUp? {
        NewRestorable(op.hash, m.capacity);
      }
  }

  lemma LookupCapacity(m: Machine, user: string, key: string)
    requires user in m.stores
    ensures Lookup(m, user, key).0.capacity == m.capacity && Lookup(m, user, key).0.useDb == m.useDb
    ensures user in Lookup(m, user, key).0.stores
  {
    hide Touch, Find, Warm;
  }

  lemma CommandRestorable(m: Machine, user: string, op: Operation)
    requires AllRestorable(m) && user in m.stores && !op.Sweep?
    ensures AllRestorable(Machines.Apply(m, user, op).0) && Machines.Apply(m, user, op).0.capacity == m.capacity
  {
    hide Restorable, Lookup, Warm, Forget, WithExpiry;
    match op
    case Set(key, value) =>
      if key != "" {
        WarmRestorable(m.stores[user], m.capacity, key, Row(value, None));
      }
    case SetEx(key, expireAt, value) =>
      if key != "" {
        WarmRestorable(m.stores[user], m.capacity, key, Row(value, Some(expireAt)));
      }
    case Delete(key, stamp) =>
      LookupRestorable(m, user, key);
      LookupCapacity(m, user, key);
      ForgottenRestorable(Lookup(m, user, key).0.stores[user], m.capacity, key);
    case ExpireAt(key, expireAt, now) => ReexpiredRestorable(m, user, key, Some(expireAt), now);
    case Persist(key, now) => ReexpiredRestorable(m, user, key, None, now);
    case _ =>
  }

  lemma ReexpiredRestorable(m: Machine, user: string, key: string, at: Option<int>, now: int)
    requires AllRestorable(m) && user in m.stores
    ensures AllRestorable(ApplyExpiry(m, user, key, at, now).0) && ApplyExpiry(m, user, key, at, now).0.capacity == m.capacity
  {
    hide Restorable, Lookup, WithExpiry;
    LookupRestorable(m, user, key);
    LookupCapacity(m, user, key);
    SameCacheRestorable(Lookup(m, user, key).0.stores[user], m.capacity, WithExpiry(Lookup(m, user, key).0.stores[user].expiry, key, at));
  }

  lemma SameCacheRestorable(s: Store, capacity: nat, expiry: map<string, int>)
    requires Restorable(s, capacity)
    ensures Restorable(s.(expiry := expiry), capacity)
  {
  }

  lemma {:induction false} AlwaysRestorable(m: Machine, es: seq<Local>)
    requires AllRestorable(m)
    ensures AllRestorable(StepAll(m, es)) && StepAll(m, es).capacity == m.capacity
  {
    hide AllRestorable, Step;
    if es != [] {
      AlwaysRestorable(m, es[..|es| - 1]);
      RestorableStays(StepAll(m, es[..|es| - 1]), es[|es| - 1]);
    }
  }

  // ------------------------------------------------------------ The composed result

  lemma {:induction false} SameForEver(m: Machine, n: Machine, es: seq<Local>)
    requires SameButOrphans(m, n)
    ensures SameButOrphans(StepAll(m, es), StepAll(n, es))
    ensures forall i :: 0 <= i < |es| ==> Outcome(StepAll(m, es[..i]), es[i]) == Outcome(StepAll(n, es[..i]), es[i])
  {
    hide SameButOrphans, Machines.Apply, Get;
    if es != [] {
      var k := |es| - 1;
      var e, a, b := es[k], StepAll(m, es[..k]), StepAll(n, es[..k]);
      SameForEver(m, n, es[..k]);
      forall i | 0 <= i < k
        ensures es[..k][..i] == es[..i]
      {
      }
      match e {
        case Logged(user, op) => SameApply(a, b, user, op);
        case LocalRead(user, key, at) => SameGet(a, b, user, key, at);
      }
    }
  }

  // A node that has lived through `before` from a fresh start dumps itself; another of the
  // same capacity loads the dump. The load succeeds, brings back the session table, and
  // from there on both give the same outcome for every command and every read.
  lemma RestoredCarriesOn(capacity: nat, before: seq<Local>, table: Table, lines: seq<Line>, es: seq<Local>)
    requires capacity >= 1
    requires IsDump(lines, StepAll(Machine(false, capacity, map[], map[], map[]), before).stores, table)
    ensures RestoreFrom(Restored(map[], map[]), capacity, lines).Some?
    ensures
      var m := StepAll(Machine(false, capacity, map[], map[], map[]), before);
      var r := RestoreFrom(Restored(map[], map[]), capacity, lines).value;
      var n := Machine(false, capacity, r.stores, map[], map[]);
      && r.table == table
      && forall i :: 0 <= i < |es| ==> Outcome(StepAll(n, es[..i]), es[i]) == Outcome(StepAll(m, es[..i]), es[i])
  {
    var m := StepAll(Machine(false, capacity, map[], map[], map[]), before);
    AlwaysRestorable(Machine(false, capacity, map[], map[], map[]), before);
    hide StepAll, RestoreFrom, IsDump, Trimmed, Restorable, Outcome;
    RoundTrip(lines, capacity, m.stores, table);
    var r := RestoreFrom(Restored(map[], map[]), capacity, lines).value;
    RestoredSameButOrphans(m, r.stores);
    assert m.(stores := r.stores) == Machine(false, capacity, r.stores, map[], map[]);
    SameForEver(m, m.(stores := r.stores), es);
  }
}
