// Without the database RAM is the only copy. As long as no user needs more keys than
// the capacity it is a plain map; beyond that, local reads decide what is evicted.
module RamOnly {
  import opened Types
  import opened Recency
  import opened PlainMaps
  import opened Machines
  import opened WriteThrough

  // The cache holds exactly the rows of the user, with their expiries and no others.
  ghost predicate StoreIs(s: Store, user: string, rows: map<Place, Row>) {
    && Unique(s.cache)
    && (forall k :: k in Keys(s.cache) <==> Place(user, k) in rows)
    && (forall k :: k in Keys(s.cache) ==> Shows(s, k, rows[Place(user, k)]))
    && (forall k :: k in s.expiry ==> k in Keys(s.cache))
  }

  ghost predicate RamAgrees(m: Machine, d: Data) {
    && !m.useDb && m.capacity >= 1
    && m.stores.Keys == d.users.Keys
    && RowsRight(d)
    && (forall u :: u in m.stores ==> m.stores[u].hash == d.users[u])
    && (forall u :: u in m.stores ==> StoreIs(m.stores[u], u, d.rows))
  }

  function UserKeys(rows: map<Place, Row>, user: string): set<string> {
    set p | p in rows && p.user == user :: p.key
  }

  // No user holds more keys than fit.
  ghost predicate Fits(d: Data, capacity: nat) {
    forall u :: u in d.users ==> |UserKeys(d.rows, u)| <= capacity
  }

  lemma StoreKeys(s: Store, user: string, rows: map<Place, Row>)
    requires StoreIs(s, user, rows)
    ensures UserKeys(rows, user) == Keys(s.cache) && |s.cache| == |UserKeys(rows, user)|
  {
    hide Keys, Unique, Shows;
    UniqueCount(s.cache);
    assert forall k :: k in UserKeys(rows, user) ==> Place(user, k) in rows;
    forall k | k in Keys(s.cache)
      ensures k in UserKeys(rows, user)
    {
      assert Place(user, k) in rows && Place(user, k).key == k;
    }
  }

  // ------------------------------------------------------------ Reads

  lemma TouchIs(s: Store, user: string, rows: map<Place, Row>, key: string)
    requires StoreIs(s, user, rows)
    ensures StoreIs(s.(cache := Touch(s.cache, key)), user, rows)
  {
    hide Keys, Touch, Find, Unique;
    var r := s.(cache := Touch(s.cache, key));
    TouchFacts(s.cache, key);
    forall k | k in Keys(r.cache)
      ensures Shows(r, k, rows[Place(user, k)])
    {
      SameFind(s.cache, r.cache, k);
    }
  }

  lemma LookupIs(m: Machine, d: Data, user: string, key: string)
    requires RamAgrees(m, d) && user in m.stores
    ensures RamAgrees(Lookup(m, user, key).0, d)
    ensures Lookup(m, user, key).1 == if Place(user, key) in d.rows then Some(d.rows[Place(user, key)]) else None
    ensures Lookup(m, user, key).0.capacity == m.capacity
  {
    hide Keys, Touch, Unique, RowsRight;
    TouchIs(m.stores[user], user, d.rows, key);
  }

  // Every read, at any time, has the result of the plain map.
  lemma RamGetRight(m: Machine, d: Data, user: string, key: string, at: int)
    requires RamAgrees(m, d)
    ensures Get(m, user, key, at).1 == Read(d, user, key, at)
    ensures RamAgrees(Get(m, user, key, at).0, d)
  {
    hide StoreIs, Lookup, RowsRight;
    if user in m.stores {
      LookupIs(m, d, user, key);
    }
  }

  // ------------------------------------------------------------ Writes

  lemma OtherIs(s: Store, u: string, rows: map<Place, Row>, later: map<Place, Row>, p: Place)
    requires StoreIs(s, u, rows) && u != p.user
    requires forall q :: q != p ==> (q in rows <==> q in later) && (q in rows ==> later[q] == rows[q])
    ensures StoreIs(s, u, later)
  {
    hide Keys, Unique, Shows;
  }

  lemma PlaceChangedIs(m: Machine, d: Data, user: string, key: string, s: Store, rows: map<Place, Row>)
    requires RamAgrees(m, d) && user in m.stores
    requires StoreIs(s, user, rows) && s.hash == m.stores[user].hash
    requires forall q :: q != Place(user, key) ==> (q in d.rows <==> q in rows) && (q in d.rows ==> rows[q] == d.rows[q])
    requires Place(user, key) in rows ==> key != ""
    ensures RamAgrees(m.(stores := m.stores[user := s]), d.(rows := rows))
  {
    hide StoreIs;
    forall u | u in m.stores && u != user
      ensures StoreIs(m.stores[u], u, rows)
    {
      OtherIs(m.stores[u], u, d.rows, rows, Place(user, key));
    }
  }

  lemma WarmIs(s: Store, user: string, capacity: nat, rows: map<Place, Row>, key: string, row: Row)
    requires StoreIs(s, user, rows) && capacity >= 1
    requires |UserKeys(rows[Place(user, key) := row], user)| <= capacity
    ensures StoreIs(Warm(capacity, s, key, row), user, rows[Place(user, key) := row])
  {
    hide Keys, Put, Find, Unique, UserKeys;
    var later := rows[Place(user, key) := row];
    var r := Warm(capacity, s, key, row);
    StoreKeys(s, user, rows);
    RoomLeft(rows, user, key, row);
    PutFacts(capacity, s.cache, key, row.value);
    FindUnique(r.cache, key, row.value);
    forall k | k in Keys(r.cache)
      ensures Shows(r, k, later[Place(user, k)])
    {
      if k != key {
        FoundBefore(s.cache, r.cache, key, row.value, k);
      }
    }
  }

  // If the data with the new row fits, the cache has room for a new key.
  lemma RoomLeft(rows: map<Place, Row>, user: string, key: string, row: Row)
    ensures UserKeys(rows[Place(user, key) := row], user) == UserKeys(rows, user) + {key}
    ensures |UserKeys(rows, user)| <= |UserKeys(rows[Place(user, key) := row], user)|
    ensures key !in UserKeys(rows, user) ==> |UserKeys(rows, user)| < |UserKeys(rows[Place(user, key) := row], user)|
  {
    var later := rows[Place(user, key) := row];
    forall k | k in UserKeys(rows, user) + {key}
      ensures k in UserKeys(later, user)
    {
      assert Place(user, k) in later;
    }
  }

  lemma SetIs(m: Machine, d: Data, user: string, key: string, row: Row)
    requires RamAgrees(m, d) && key != ""
    requires user in d.users ==> Fits(d.(rows := d.rows[Place(user, key) := row]), m.capacity)
    ensures ApplySet(m, user, key, row).1 == Truth(user in d.users)
    ensures RamAgrees(ApplySet(m, user, key, row).0, if user in d.users then d.(rows := d.rows[Place(user, key) := row]) else d)
  {
    hide StoreIs, Warm, RowsRight, UserKeys;
    if user in m.stores {
      var s := m.stores[user];
      WarmIs(s, user, m.capacity, d.rows, key, row);
      WarmHash(m.capacity, s, key, row);
      PlaceChangedIs(m, d, user, key, Warm(m.capacity, s, key, row), d.rows[Place(user, key) := row]);
    }
  }

  lemma ForgetIs(s: Store, user: string, rows: map<Place, Row>, key: string)
    requires StoreIs(s, user, rows)
    ensures StoreIs(Forget(s, key), user, rows - {Place(user, key)})
  {
    hide Keys, Find, Unique, Without;
    var r := Forget(s, key);
    WithoutUnique(s.cache, key);
    WithoutKeys(s.cache, key);
    forall k | k in Keys(r.cache)
      ensures Shows(r, k, rows[Place(user, k)])
    {
      SameFind(s.cache, r.cache, k);
    }
  }

  lemma DeleteIs(m: Machine, d: Data, user: string, key: string, stamp: Option<int>)
    requires RamAgrees(m, d)
    ensures ApplyDelete(m, user, key, stamp).1 == Perform(d, user, Delete(key, stamp)).1
    ensures RamAgrees(ApplyDelete(m, user, key, stamp).0, Perform(d, user, Delete(key, stamp)).0)
  {
    hide StoreIs, Lookup, Forget, RowsRight;
    if user in m.stores {
      LookupIs(m, d, user, key);
      var n := Lookup(m, user, key).0;
      ForgetIs(n.stores[user], user, d.rows, key);
      ForgetHash(n.stores[user], key);
      RowsRightWithout(d, Place(user, key));
      PlaceChangedIs(n, d, user, key, Forget(n.stores[user], key), d.rows - {Place(user, key)});
    }
  }

  lemma RowsRightWithout(d: Data, p: Place)
    requires RowsRight(d)
    ensures RowsRight(d.(rows := d.rows - {p}))
  {
  }

  lemma ReexpireIs(s: Store, user: string, rows: map<Place, Row>, key: string, at: Option<int>)
    requires StoreIs(s, user, rows) && Place(user, key) in rows
    ensures StoreIs(s.(expiry := WithExpiry(s.expiry, key, at)), user, rows[Place(user, key) := rows[Place(user, key)].(expireAt := at)])
  {
    hide Keys, Find, Unique;
  }

  lemma ExpiryIs(m: Machine, d: Data, user: string, key: string, at: Option<int>, now: int)
    requires RamAgrees(m, d)
    ensures ApplyExpiry(m, user, key, at, now).1 == Reexpire(d, user, key, at, now).1
    ensures RamAgrees(ApplyExpiry(m, user, key, at, now).0, Reexpire(d, user, key, at, now).0)
  {
    hide StoreIs, Lookup, WithExpiry;
    if user in m.stores {
      LookupIs(m, d, user, key);
      var n := Lookup(m, user, key).0;
      var p := Place(user, key);
      if p in d.rows && !Expired(d.rows[p].expireAt, now) && (at.Some? || d.rows[p].expireAt.Some?) {
        var s := n.stores[user];
        ReexpireIs(s, user, d.rows, key, at);
        PlaceChangedIs(n, d, user, key, s.(expiry := WithExpiry(s.expiry, key, at)), d.rows[p := d.rows[p].(expireAt := at)]);
      }
    }
  }

  lemma SweptIs(s: Store, user: string, rows: map<Place, Row>, at: int)
    requires StoreIs(s, user, rows)
    ensures StoreIs(SweptStore(s, at), user, rows - ExpiredPlaces(rows, at))
    ensures forall k :: k in ExpiredKeys(s, at) && k in Keys(s.cache) <==> Place(user, k) in ExpiredPlaces(rows, at)
  {
    hide Keys, Find, Unique, Keep;
    var r := SweptStore(s, at);
    KeepUnique(s.cache, Keys(s.cache) - ExpiredKeys(s, at));
    forall k | k in Keys(s.cache)
      ensures k in ExpiredKeys(s, at) <==> Expired(rows[Place(user, k)].expireAt, at)
    {
      assert Shows(s, k, rows[Place(user, k)]);
    }
    forall k | k in Keys(r.cache)
      ensures Shows(r, k, rows[Place(user, k)])
    {
      SameFind(s.cache, r.cache, k);
    }
  }

  lemma SweepIs(m: Machine, d: Data, at: int)
    requires RamAgrees(m, d)
    ensures ApplySweep(m, at).1 == Perform(d, "", Sweep(at)).1
    ensures RamAgrees(ApplySweep(m, at).0, Perform(d, "", Sweep(at)).0)
  {
    hide StoreIs, SweptStore, ExpiredKeys, Keys;
    forall u | u in m.stores
      ensures StoreIs(SweptStore(m.stores[u], at), u, d.rows - ExpiredPlaces(d.rows, at))
      ensures SweptStore(m.stores[u], at).hash == m.stores[u].hash
    {
      SweptIs(m.stores[u], u, d.rows, at);
      SweptHash(m.stores[u], at);
    }
    SweepCounts(m, d, at);
  }

  lemma SweepCounts(m: Machine, d: Data, at: int)
    requires RamAgrees(m, d)
    ensures SweptPlaces(m, at) == ExpiredPlaces(d.rows, at)
  {
    hide StoreIs, Keys, SweptStore;
    forall u, k | u in m.stores && k in m.stores[u].expiry && k in ExpiredKeys(m.stores[u], at) && k in Keys(m.stores[u].cache)
      ensures Place(u, k) in ExpiredPlaces(d.rows, at)
    {
      SweptIs(m.stores[u], u, d.rows, at);
    }
    forall p | p in ExpiredPlaces(d.rows, at)
      ensures p in SweptPlaces(m, at)
    {
      SweptIs(m.stores[p.user], p.user, d.rows, at);
      assert p == Place(p.user, p.key);
    }
  }

  lemma SignUpIs(m: Machine, d: Data, user: string, hash: string)
    requires RamAgrees(m, d)
    ensures ApplySignUp(m, user, hash).1 == Perform(d, user, SignUp(hash)).1
    ensures RamAgrees(ApplySignUp(m, user, hash).0, Perform(d, user, SignUp(hash)).0)
  {
    NoKeys<string>();
  }

  // Every command gives the answer of the plain map, as long as the data fits.
  lemma RamApplyRight(m: Machine, d: Data, user: string, op: Operation)
    requires RamAgrees(m, d) && KeyGiven(op) && Fits(Perform(d, user, op).0, m.capacity)
    ensures Apply(m, user, op).1 == Perform(d, user, op).1
    ensures RamAgrees(Apply(m, user, op).0, Perform(d, user, op).0)
    ensures Apply(m, user, op).0.capacity == m.capacity
  {
    hide RamAgrees, ApplySet, ApplyDelete, ApplyExpiry, ApplySweep, ApplySignUp, Fits;
    SameCapacity(m, user, op);
    match op
    case SignUp(hash) => SignUpIs(m, d, user, hash);
    case Set(key, value) => SetIs(m, d, user, key, Row(value, None));
    case SetEx(key, expireAt, value) => SetIs(m, d, user, key, Row(value, Some(expireAt)));
    case Delete(key, stamp) => DeleteIs(m, d, user, key, stamp);
    case ExpireAt(key, expireAt, now) => ExpiryIs(m, d, user, key, Some(expireAt), now);
    case Persist(key, now) => ExpiryIs(m, d, user, key, None, now);
    case Sweep(now) => SweepIs(m, d, now);
    case Unknown =>
  }

  lemma SameCapacity(m: Machine, user: string, op: Operation)
    ensures Apply(m, user, op).0.capacity == m.capacity
  {
    hide Put, Touch, Keep, Find;
  }

  // ------------------------------------------------------------ Replicas

  datatype Local = Logged(user: string, op: Operation) | LocalRead(user: string, key: string, at: int)

  function Step(m: Machine, e: Local): Machine {
    match e
    case Logged(user, op) => Apply(m, user, op).0
    case LocalRead(user, key, at) => Get(m, user, key, at).0
  }

  function StepAll(m: Machine, es: seq<Local>): Machine {
    if es == [] then m else Step(StepAll(m, es[..|es| - 1]), es[|es| - 1])
  }

  function StepPlain(d: Data, e: Local): Data {
    if e.Logged? then Perform(d, e.user, e.op).0 else d
  }

  function PlainAll(d: Data, es: seq<Local>): Data {
    if es == [] then d else StepPlain(PlainAll(d, es[..|es| - 1]), es[|es| - 1])
  }

  // The commands alone; reads are each node's own.
  function Log(es: seq<Local>): seq<Local> {
    if es == [] then []
    else if es[|es| - 1].Logged? then Log(es[..|es| - 1]) + [es[|es| - 1]] else Log(es[..|es| - 1])
  }

  lemma {:induction false} ReadsDoNotCount(d: Data, es: seq<Local>)
    ensures PlainAll(d, es) == PlainAll(d, Log(es))
  {
    if es != [] {
      ReadsDoNotCount(d, es[..|es| - 1]);
      if es[|es| - 1].Logged? {
        assert Log(es)[..|Log(es)| - 1] == Log(es[..|es| - 1]);
      }
    }
  }

  lemma {:induction false} RamRunRight(m: Machine, d: Data, es: seq<Local>)
    requires RamAgrees(m, d)
    requires forall i :: 0 <= i < |es| && es[i].Logged? ==> KeyGiven(es[i].op)
    requires forall i :: 0 <= i <= |es| ==> Fits(PlainAll(d, es[..i]), m.capacity)
    ensures RamAgrees(StepAll(m, es), PlainAll(d, es)) && StepAll(m, es).capacity == m.capacity
  {
    hide RamAgrees, Fits, Apply, Perform, Get;
    if es != [] {
      var n := |es| - 1;
      forall i | 0 <= i <= n
        ensures es[..n][..i] == es[..i]
      {
      }
      RamRunRight(m, d, es[..n]);
      assert es[..|es|] == es;
      var e := es[n];
      if e.Logged? {
        RamApplyRight(StepAll(m, es[..n]), PlainAll(d, es[..n]), e.user, e.op);
      } else {
        RamGetRight(StepAll(m, es[..n]), PlainAll(d, es[..n]), e.user, e.key, e.at);
        GetCapacity(StepAll(m, es[..n]), e.user, e.key, e.at);
      }
    }
  }

  lemma GetCapacity(m: Machine, user: string, key: string, at: int)
    ensures Get(m, user, key, at).0.capacity == m.capacity
  {
    hide Put, Touch, Find;
  }

  // Two replicas that applied the same log, each with its own reads in between and its
  // own capacity, answer the next command and every read alike.
  lemma ReplicasAgree(m: Machine, n: Machine, d: Data, es: seq<Local>, fs: seq<Local>, user: string, op: Operation, key: string, at: int)
    requires RamAgrees(m, d) && RamAgrees(n, d) && Log(es) == Log(fs) && KeyGiven(op)
    requires forall i :: 0 <= i < |es| && es[i].Logged? ==> KeyGiven(es[i].op)
    requires forall i :: 0 <= i < |fs| && fs[i].Logged? ==> KeyGiven(fs[i].op)
    requires forall i :: 0 <= i <= |es| ==> Fits(PlainAll(d, es[..i]), m.capacity)
    requires forall i :: 0 <= i <= |fs| ==> Fits(PlainAll(d, fs[..i]), n.capacity)
    requires Fits(Perform(PlainAll(d, es), user, op).0, m.capacity) && Fits(Perform(PlainAll(d, es), user, op).0, n.capacity)
    ensures Apply(StepAll(m, es), user, op).1 == Apply(StepAll(n, fs), user, op).1
    ensures Get(StepAll(m, es), user, key, at).1 == Get(StepAll(n, fs), user, key, at).1
  {
    hide RamAgrees, Fits, Apply, Perform, Get;
    RamRunRight(m, d, es);
    RamRunRight(n, d, fs);
    ReadsDoNotCount(d, es);
    ReadsDoNotCount(d, fs);
    RamApplyRight(StepAll(m, es), PlainAll(d, es), user, op);
    RamApplyRight(StepAll(n, fs), PlainAll(d, fs), user, op);
    RamGetRight(StepAll(m, es), PlainAll(d, es), user, key, at);
    RamGetRight(StepAll(n, fs), PlainAll(d, fs), user, key, at);
  }

  // ------------------------------------------------------------ Beyond the capacity

  // The command adds a key to a user who holds as many as fit.
  ghost predicate AddsKey(d: Data, user: string, op: Operation, capacity: nat) {
    && (op.Set? || op.SetEx?)
    && user in d.users && Place(user, op.key) !in d.rows && |UserKeys(d.rows, user)| == capacity
  }

  // That is the only way out of what fits.
  lemma OnlyNewKeysOverflow(d: Data, user: string, op: Operation, capacity: nat)
    requires RowsRight(d) && Fits(d, capacity)
    ensures !Fits(Perform(d, user, op).0, capacity) ==> AddsKey(d, user, op, capacity)
    ensures AddsKey(d, user, op, capacity) ==> !Fits(Perform(d, user, op).0, capacity)
  {
    hide UserKeys;
    var e := Perform(d, user, op).0;
    if op.Set? || op.SetEx? {
      var row := if op.Set? then Row(op.value, None) else Row(op.value, Some(op.expireAt));
      RoomLeft(d.rows, user, op.key, row);
      KeyHeld(d.rows, user, op.key);
      forall u | u in d.users && u != user
        ensures UserKeys(e.rows, u) == UserKeys(d.rows, u)
      {
        OtherKeys(d.rows, user, op.key, row, u);
      }
    } else {
      forall u | u in e.users
        ensures |UserKeys(e.rows, u)| <= capacity
      {
        FewerKeys(d, user, op, u);
        NoKeysYet(d, u);
      }
    }
  }

  lemma KeyHeld(rows: map<Place, Row>, user: string, key: string)
    ensures key in UserKeys(rows, user) <==> Place(user, key) in rows
  {
    assert Place(user, key) in rows ==> Place(user, key).key == key;
    forall p | p in rows && p.user == user && p.key == key
      ensures p == Place(user, key)
    {
    }
  }

  lemma OtherKeys(rows: map<Place, Row>, user: string, key: string, row: Row, u: string)
    requires u != user
    ensures UserKeys(rows[Place(user, key) := row], u) == UserKeys(rows, u)
  {
    forall k
      ensures k in UserKeys(rows[Place(user, key) := row], u) <==> k in UserKeys(rows, u)
    {
      KeyHeld(rows, u, k);
      KeyHeld(rows[Place(user, key) := row], u, k);
    }
  }

  lemma FewerKeys(d: Data, user: string, op: Operation, u: string)
    requires !op.Set? && !op.SetEx?
    ensures UserKeys(Perform(d, user, op).0.rows, u) <= UserKeys(d.rows, u)
    ensures |UserKeys(Perform(d, user, op).0.rows, u)| <= |UserKeys(d.rows, u)|
  {
    hide Perform, UserKeys;
    NoNewRows(d, user, op);
    FewerRows(Perform(d, user, op).0.rows, d.rows, u);
  }

  lemma NoNewRows(d: Data, user: string, op: Operation)
    requires !op.Set? && !op.SetEx?
    ensures Perform(d, user, op).0.rows.Keys <= d.rows.Keys
  {
  }

  lemma FewerRows(a: map<Place, Row>, b: map<Place, Row>, u: string)
    requires a.Keys <= b.Keys
    ensures UserKeys(a, u) <= UserKeys(b, u) && |UserKeys(a, u)| <= |UserKeys(b, u)|
  {
    var x, y := UserKeys(a, u), UserKeys(b, u);
    assert x <= y;
    assert y == x + (y - x);
  }

  lemma NoKeysYet(d: Data, u: string)
    requires RowsRight(d)
    ensures u !in d.users ==> UserKeys(d.rows, u) == {}
  {
  }

  // A full cache drops its first key for a new one; touched just before, that key stays.
  lemma FirstKeyDecides(cap: nat, s: Items<string>, key: string, v: string)
    requires Unique(s) && |s| == cap && cap >= 2 && key !in Keys(s)
    ensures s[0].0 !in Keys(Put(cap, s, key, v))
    ensures s[0].0 in Keys(Put(cap, Touch(s, s[0].0), key, v))
  {
    hide Keys, Find, Without, Unique;
    var k := s[0].0;
    FirstIn(s);
    FindUnique(s, k, s[0].1);
    FirstOut(s);
    TailKeys(s);
    KeysPush(s[1..], key, v);
    var t := s[1..] + [(k, s[0].1)];
    KeysPush(s[1..], k, s[0].1);
    assert t[1..] == s[2..] + [(k, s[0].1)];
    KeysPush(s[2..], k, s[0].1);
    KeysPush(t[1..], key, v);
    TouchFacts(s, k);
  }

  lemma FirstIn(s: Items<string>)
    requires s != []
    ensures s[0].0 in Keys(s) && s[0] in s
  {
  }

  // The row a set writes.
  function RowOf(op: Operation): Row
    requires op.Set? || op.SetEx?
  {
    if op.Set? then Row(op.value, None) else Row(op.value, Some(op.expireAt))
  }

  lemma SetKeys(m: Machine, user: string, op: Operation)
    requires !m.useDb && user in m.stores && (op.Set? || op.SetEx?) && op.key != ""
    ensures user in Apply(m, user, op).0.stores
    ensures Apply(m, user, op).0.stores[user].cache == Put(m.capacity, m.stores[user].cache, op.key, RowOf(op).value)
    ensures !Apply(m, user, op).0.useDb
  {
    hide Put;
  }

  lemma DeleteTells(m: Machine, user: string, key: string)
    requires !m.useDb && user in m.stores
    ensures Apply(m, user, Delete(key, None)).1 == Truth(key in Keys(m.stores[user].cache))
  {
    hide Keys, Touch;
  }

  lemma ReadTouches(m: Machine, user: string, key: string, at: int)
    requires !m.useDb && user in m.stores
    ensures var n := Get(m, user, key, at).0;
      !n.useDb && n.capacity == m.capacity && user in n.stores && n.stores[user].cache == Touch(m.stores[user].cache, key)
  {
    hide Keys, Without;
  }

  // The first command after which the data no longer fits: with a capacity of two or
  // more, a read of the oldest key just before it changes what is evicted, and a DELETE
  // of that key then tells the two replicas apart.
  lemma OverflowDiverges(m: Machine, d: Data, user: string, op: Operation, at: int) returns (key: string)
    requires RamAgrees(m, d) && m.capacity >= 2 && KeyGiven(op)
    requires Fits(d, m.capacity) && !Fits(Perform(d, user, op).0, m.capacity)
    ensures Apply(Apply(m, user, op).0, user, Delete(key, None)).1 == Truth(false)
    ensures Apply(Apply(Get(m, user, key, at).0, user, op).0, user, Delete(key, None)).1 == Truth(true)
  {
    hide Keys, Put, Touch, Apply, Get, Fits, UserKeys, Unique, Shows, Perform;
    OnlyNewKeysOverflow(d, user, op, m.capacity);
    var s := m.stores[user];
    StoreOfUser(m, d, user);
    StoreKeys(s, user, d.rows);
    key := s.cache[0].0;
    FirstKeyDecides(m.capacity, s.cache, op.key, RowOf(op).value);
    SetKeys(m, user, op);
    DeleteTells(Apply(m, user, op).0, user, key);
    var n := Get(m, user, key, at).0;
    ReadTouches(m, user, key, at);
    SetKeys(n, user, op);
    DeleteTells(Apply(n, user, op).0, user, key);
  }

  lemma StoreOfUser(m: Machine, d: Data, user: string)
    requires RamAgrees(m, d) && user in d.users
    ensures user in m.stores && StoreIs(m.stores[user], user, d.rows) && Unique(m.stores[user].cache)
    ensures forall key :: Place(user, key) !in d.rows ==> key !in Keys(m.stores[user].cache)
  {
    hide Shows;
  }

  // Two replicas of one log that overflows the capacity, one with a read more: they
  // answer the next DELETE differently, whatever happened before.
  lemma ReplicasDiverge(m: Machine, d: Data, es: seq<Local>, user: string, op: Operation, at: int) returns (key: string)
    requires RamAgrees(m, d) && m.capacity >= 2 && KeyGiven(op)
    requires forall i :: 0 <= i < |es| && es[i].Logged? ==> KeyGiven(es[i].op)
    requires forall i :: 0 <= i <= |es| ==> Fits(PlainAll(d, es[..i]), m.capacity)
    requires !Fits(PlainAll(d, es + [Logged(user, op)]), m.capacity)
    ensures Log(es + [LocalRead(user, key, at), Logged(user, op)]) == Log(es + [Logged(user, op)])
    ensures
      var plain := StepAll(m, es + [Logged(user, op)]);
      var reading := StepAll(m, es + [LocalRead(user, key, at), Logged(user, op)]);
      Apply(plain, user, Delete(key, None)).1 != Apply(reading, user, Delete(key, None)).1
  {
    hide RamAgrees, Fits, Apply, Perform, Get;
    var e := Logged(user, op);
    RamRunRight(m, d, es);
    assert (es + [e])[..|es|] == es && es[..|es|] == es;
    key := OverflowDiverges(StepAll(m, es), PlainAll(d, es), user, op, at);
    var r := LocalRead(user, key, at);
    assert es + [r, e] == (es + [r]) + [e];
    assert ((es + [r]) + [e])[..|es| + 1] == es + [r];
    assert (es + [r])[..|es|] == es;
  }

  // ------------------------------------------------------------ A capacity of one

  ghost predicate OneEach(m: Machine) {
    !m.useDb && m.capacity == 1 && forall u :: u in m.stores ==> |m.stores[u].cache| <= 1
  }

  // With a single slot there is no order to disturb.
  lemma ReadsChangeNothing(m: Machine, user: string, key: string, at: int)
    requires OneEach(m)
    ensures Get(m, user, key, at).0 == m
  {
    if user in m.stores {
      var s := m.stores[user];
      if s.cache != [] {
        assert s.cache == [s.cache[0]];
        assert s.cache[..0] == [];
        OneTouched(s.cache, key);
      }
      assert m.stores[user := s] == m.stores;
    }
  }

  lemma OneTouched(s: Items<string>, key: string)
    requires |s| == 1
    ensures Touch(s, key) == s
  {
    assert s[..0] == [];
    if key in Keys(s) {
      assert s[0].0 == key;
      assert Without(s, key) == [];
    }
  }

  lemma OneStays(m: Machine, user: string, op: Operation)
    requires OneEach(m)
    ensures OneEach(Apply(m, user, op).0)
  {
    hide Keys, Keep, Without, Put, Touch, Find;
    if op.Sweep? {
      forall u | u in m.stores
        ensures |SweptStore(m.stores[u], op.now).cache| <= 1
      {
        OneKept(m.stores[u].cache, Keys(m.stores[u].cache) - ExpiredKeys(m.stores[u], op.now));
      }
    } else if user in m.stores {
      var c := m.stores[user].cache;
      match op {
        case Set(key, value) => OnePut(c, key, value);
        case SetEx(key, _, value) => OnePut(c, key, value);
        case Delete(key, _) =>
          OnePut(c, key, "");
          OneLeft(c, key);
          OneLeft(Touch(c, key), key);
        case ExpireAt(key, _, _) => OnePut(c, key, "");
        case Persist(key, _) => OnePut(c, key, "");
        case _ =>
      }
    }
  }

  lemma OnePut(s: Items<string>, key: string, v: string)
    requires |s| <= 1
    ensures |Put(1, s, key, v)| <= 1 && |Touch(s, key)| <= 1
  {
    if s != [] {
      assert s[..0] == [];
      if key in Keys(s) {
        assert s[0].0 == key;
      }
      OneTouched(s, key);
    }
  }

  lemma OneLeft(s: Items<string>, key: string)
    requires |s| <= 1
    ensures |Without(s, key)| <= 1
  {
    if s != [] {
      assert s[..0] == [];
    }
  }

  lemma OneKept(s: Items<string>, wanted: set<string>)
    requires |s| <= 1
    ensures |Keep(s, wanted)| <= 1
  {
    if s != [] {
      assert Keep(s[..|s| - 1], wanted) == [];
    }
  }

  lemma {:induction false} OnlyLogCounts(m: Machine, es: seq<Local>)
    requires OneEach(m)
    ensures StepAll(m, es) == StepAll(m, Log(es)) && OneEach(StepAll(m, es))
  {
    hide OneEach, Apply, Get;
    if es != [] {
      var n := |es| - 1;
      OnlyLogCounts(m, es[..n]);
      var b := StepAll(m, es[..n]);
      if es[n].Logged? {
        OneStays(b, es[n].user, es[n].op);
        assert Log(es)[..|Log(es)| - 1] == Log(es[..n]);
      } else {
        ReadsChangeNothing(b, es[n].user, es[n].key, es[n].at);
      }
    }
  }

  // With a capacity of one, replicas of one log are equal whatever they read and however
  // many keys their users set.
  lemma SingleSlotsAgree(m: Machine, es: seq<Local>, fs: seq<Local>)
    requires OneEach(m) && Log(es) == Log(fs)
    ensures StepAll(m, es) == StepAll(m, fs)
  {
    hide OneEach, Apply, Get;
    OnlyLogCounts(m, es);
    OnlyLogCounts(m, fs);
  }
}
