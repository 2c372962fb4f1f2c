// With the database on, the cache and the expiry table agree with a plain map: for every
// capacity, every warm state, every interleaving of reads, and in the middle of a SWEEP.
module WriteThrough {
  import opened Types
  import opened Recency
  import opened PlainMaps
  import opened Machines

  ghost predicate Shows(s: Store, key: string, row: Row) {
    Find(s.cache, key) == Some(row.value) && ExpiryOf(s.expiry, key) == row.expireAt
  }

  // A cached key shows its row; or, in a store still to be swept, a row just removed.
  ghost predicate KeyRight(s: Store, user: string, key: string, now: map<Place, Row>, before: map<Place, Row>, unswept: bool) {
    var p := Place(user, key);
    || (p in now && Shows(s, key, now[p]))
    || (unswept && p !in now && p in before && Shows(s, key, before[p]))
  }

  ghost predicate StoreRight(s: Store, user: string, capacity: nat, now: map<Place, Row>, before: map<Place, Row>, unswept: bool) {
    && Unique(s.cache) && |s.cache| <= capacity
    && forall k :: k in Keys(s.cache) ==> KeyRight(s, user, k, now, before, unswept)
  }

  ghost predicate RowsRight(d: Data) {
    forall p :: p in d.rows ==> p.user in d.users && p.key != ""
  }

  // Between the halves of a SWEEP at time `at`: before is the data until its database
  // half, todo are the users whose store is still to be swept.
  ghost predicate Agrees(m: Machine, d: Data, before: Data, at: int, todo: set<string>) {
    && m.useDb && m.capacity >= 1
    && m.rows == d.rows && m.users == d.users && m.stores.Keys == d.users.Keys
    && RowsRight(d)
    && before.users == d.users
    && SameButExpired(before, d, at)
    && (forall u :: u in m.stores ==> m.stores[u].hash == d.users[u])
    && (forall u :: u in m.stores ==> StoreRight(m.stores[u], u, m.capacity, d.rows, before.rows, u in todo))
  }

  // No SWEEP under way.
  ghost predicate AtRest(m: Machine, d: Data) {
    Agrees(m, d, d, 0, {})
  }

  // ------------------------------------------------------------ Stores

  lemma TouchRight(s: Store, user: string, capacity: nat, now: map<Place, Row>, before: map<Place, Row>, unswept: bool, key: string)
    requires StoreRight(s, user, capacity, now, before, unswept)
    ensures StoreRight(s.(cache := Touch(s.cache, key)), user, capacity, now, before, unswept)
  {
    hide Keys, Touch, Find, Unique;
    var r := s.(cache := Touch(s.cache, key));
    TouchFacts(s.cache, key);
    forall k | k in Keys(r.cache)
      ensures KeyRight(r, user, k, now, before, unswept)
    {
      assert KeyRight(s, user, k, now, before, unswept);
      SameFind(s.cache, r.cache, k);
    }
  }

  // Caches with the same pairs answer alike.
  lemma SameFind(a: Items<string>, b: Items<string>, k: string)
    requires Unique(a) && Unique(b) && k in Keys(a)
    requires forall e :: e in a && e.0 == k ==> e in b
    ensures Find(b, k) == Find(a, k)
  {
    var x := Find(a, k).value;
    assert (k, x) in a;
    FindUnique(b, k, x);
  }

  // The key shows its new row, and no other row of the user has changed.
  lemma WarmRight(s: Store, user: string, capacity: nat, now: map<Place, Row>, later: map<Place, Row>, before: map<Place, Row>, unswept: bool, key: string, row: Row)
    requires StoreRight(s, user, capacity, now, before, unswept) && capacity >= 1
    requires Place(user, key) in later && later[Place(user, key)] == row
    requires forall p :: p != Place(user, key) ==> (p in now <==> p in later) && (p in now ==> later[p] == now[p])
    ensures StoreRight(Warm(capacity, s, key, row), user, capacity, later, before, unswept)
  {
    hide Keys, Put, Find, Unique;
    var r := Warm(capacity, s, key, row);
    PutFacts(capacity, s.cache, key, row.value);
    FindUnique(r.cache, key, row.value);
    forall k | k in Keys(r.cache)
      ensures KeyRight(r, user, k, later, before, unswept)
    {
      if k != key {
        assert KeyRight(s, user, k, now, before, unswept);
        FoundBefore(s.cache, r.cache, key, row.value, k);
      }
    }
  }

  lemma FoundBefore(a: Items<string>, b: Items<string>, key: string, v: string, k: string)
    requires Unique(a) && Unique(b) && k in Keys(b) && k != key
    requires forall e :: e in b ==> e == (key, v) || (e in a && e.0 != key)
    ensures Find(b, k) == Find(a, k)
  {
    var x := Find(b, k).value;
    assert (k, x) in b;
    assert (k, x) in a;
    FindUnique(a, k, x);
  }

  lemma ForgetRight(s: Store, user: string, capacity: nat, now: map<Place, Row>, before: map<Place, Row>, unswept: bool, key: string)
    requires StoreRight(s, user, capacity, now, before, unswept)
    ensures StoreRight(Forget(s, key), user, capacity, now - {Place(user, key)}, before, unswept)
  {
    hide Keys, Find, Unique, Without;
    var r := Forget(s, key);
    WithoutUnique(s.cache, key);
    WithoutKeys(s.cache, key);
    forall k | k in Keys(r.cache)
      ensures KeyRight(r, user, k, now - {Place(user, key)}, before, unswept)
    {
      assert KeyRight(s, user, k, now, before, unswept);
      SameFind(s.cache, r.cache, k);
    }
  }

  lemma ReexpireRight(s: Store, user: string, capacity: nat, now: map<Place, Row>, before: map<Place, Row>, key: string, at: Option<int>)
    requires StoreRight(s, user, capacity, now, before, false) && Place(user, key) in now
    ensures StoreRight(s.(expiry := WithExpiry(s.expiry, key, at)), user, capacity,
                       now[Place(user, key) := now[Place(user, key)].(expireAt := at)], before, false)
  {
    hide Keys, Find, Unique;
    var r := s.(expiry := WithExpiry(s.expiry, key, at));
    forall k | k in Keys(r.cache)
      ensures KeyRight(r, user, k, now[Place(user, key) := now[Place(user, key)].(expireAt := at)], before, false)
    {
      assert KeyRight(s, user, k, now, before, false);
    }
  }

  // The RAM half leaves only keys that show their row.
  lemma SweptRight(s: Store, user: string, capacity: nat, now: map<Place, Row>, before: map<Place, Row>, at: int)
    requires StoreRight(s, user, capacity, now, before, true)
    requires forall p :: p in before && p !in now ==> Expired(before[p].expireAt, at)
    ensures StoreRight(SweptStore(s, at), user, capacity, now, before, false)
  {
    hide Keys, Find, Unique, Keep;
    var r := SweptStore(s, at);
    var kept := Keys(s.cache) - ExpiredKeys(s, at);
    KeepUnique(s.cache, kept);
    forall k | k in Keys(r.cache)
      ensures KeyRight(r, user, k, now, before, false)
    {
      assert KeyRight(s, user, k, now, before, true);
      SameFind(s.cache, r.cache, k);
    }
  }

  lemma {:induction false} KeepUnique<V>(s: Items<V>, wanted: set<string>)
    requires Unique(s)
    ensures Unique(Keep(s, wanted)) && |Keep(s, wanted)| <= |s|
    ensures Keys(Keep(s, wanted)) == Keys(s) * wanted
    ensures forall e :: e in s && e.0 in wanted ==> e in Keep(s, wanted)
  {
    if s != [] {
      var t, e := s[..|s| - 1], s[|s| - 1];
      KeepUnique(t, wanted);
      Split(s);
      KeysPush(Keep(t, wanted), e.0, e.1);
      if e.0 in wanted {
        assert e.0 !in Keys(t);
        PushUnique(Keep(t, wanted), e.0, e.1);
      }
    }
  }

  // ------------------------------------------------------------ Lookups and reads

  // What the sweep still has to remove may be seen for a moment, nothing else.
  ghost predicate Seen(d: Data, before: Data, at: int, stale: bool, p: Place, item: Option<Row>) {
    || (item == if p in d.rows then Some(d.rows[p]) else None)
    || (stale && p !in d.rows && p in before.rows && item == Some(before.rows[p]))
  }

  lemma LookupRight(m: Machine, d: Data, before: Data, at: int, todo: set<string>, user: string, key: string)
    requires Agrees(m, d, before, at, todo) && user in m.stores
    ensures Agrees(Lookup(m, user, key).0, d, before, at, todo)
    ensures Seen(d, before, at, user in todo, Place(user, key), Lookup(m, user, key).1)
    ensures Lookup(m, user, key).0.stores.Keys == m.stores.Keys && Lookup(m, user, key).0.capacity == m.capacity
  {
    hide StoreRight, Put, Touch, RowsRight, SameButExpired, Keys;
    var s, p := m.stores[user], Place(user, key);
    if Find(s.cache, key).Some? {
      TouchRight(s, user, m.capacity, d.rows, before.rows, user in todo, key);
      CachedRight(s, user, m.capacity, d.rows, before.rows, user in todo, key);
    } else if p in m.rows {
      WarmRight(s, user, m.capacity, d.rows, d.rows, before.rows, user in todo, key, m.rows[p]);
    }
  }

  // What a lookup finds is in RAM afterwards, as the most recently used key.
  lemma LookupWarms(m: Machine, d: Data, before: Data, at: int, todo: set<string>, user: string, key: string)
    requires Agrees(m, d, before, at, todo) && user in m.stores
    ensures user in Lookup(m, user, key).0.stores
    ensures var (n, item) := Lookup(m, user, key);
      var c := n.stores[user].cache;
      item.Some? ==> c != [] && c[|c| - 1] == (key, item.value.value) && ExpiryOf(n.stores[user].expiry, key) == item.value.expireAt
  {
    hide Put, Touch, Keys, Unique, RowsRight, SameButExpired;
    var s := m.stores[user];
    StoreOf(m, d, before, at, todo, user);
    if Find(s.cache, key).Some? {
      TouchedLast(s.cache, key);
    } else if Place(user, key) in m.rows {
      PutFacts(m.capacity, s.cache, key, m.rows[Place(user, key)].value);
    }
  }

  lemma TouchedLast(s: Items<string>, key: string)
    requires Find(s, key).Some?
    ensures var c := Touch(s, key); c != [] && c[|c| - 1] == (key, Find(s, key).value)
  {
  }

  lemma CachedRight(s: Store, user: string, capacity: nat, now: map<Place, Row>, before: map<Place, Row>, unswept: bool, key: string)
    requires StoreRight(s, user, capacity, now, before, unswept) && key in Keys(s.cache)
    ensures KeyRight(s, user, key, now, before, unswept)
  {
  }

  // A read returns what the plain map holds at its time. Until the store is swept, a
  // read whose clock is behind the SWEEP may still see the value from before it.
  lemma GetRight(m: Machine, d: Data, before: Data, at: int, todo: set<string>, user: string, key: string, now: int)
    requires Agrees(m, d, before, at, todo)
    ensures var (n, value) := Get(m, user, key, now);
      && Agrees(n, d, before, at, todo)
      && (value == Read(d, user, key, now) || (user in todo && now < at && value == Read(before, user, key, now)))
  {
    if user in m.stores {
      hide Agrees, Lookup;
      AgreesFacts(m, d, before, at, todo);
      LookupRight(m, d, before, at, todo, user, key);
    }
  }

  lemma AgreesFacts(m: Machine, d: Data, before: Data, at: int, todo: set<string>)
    requires Agrees(m, d, before, at, todo)
    ensures m.stores.Keys == d.users.Keys && before.users == d.users && SameButExpired(before, d, at)
    ensures m.useDb && m.capacity >= 1 && m.rows == d.rows && m.users == d.users && RowsRight(d)
  {
    hide StoreRight, RowsRight, SameButExpired;
  }

  // ------------------------------------------------------------ Commands

  predicate KeyGiven(op: Operation) {
    match op
    case Set(key, _) => key != ""
    case SetEx(key, _, _) => key != ""
    case _ => true
  }

  // Rows of other places are untouched, so other stores stay right.
  lemma OtherStore(s: Store, u: string, capacity: nat, now: map<Place, Row>, later: map<Place, Row>, p: Place)
    requires StoreRight(s, u, capacity, now, now, false) && u != p.user
    requires forall q :: q != p ==> (q in now <==> q in later) && (q in now ==> later[q] == now[q])
    ensures StoreRight(s, u, capacity, later, later, false)
  {
    hide Keys, Find, Unique;
    forall k | k in Keys(s.cache)
      ensures KeyRight(s, u, k, later, later, false)
    {
      assert KeyRight(s, u, k, now, now, false);
    }
  }

  // One store and one row changed.
  lemma PlaceChanged(m: Machine, d: Data, user: string, key: string, s: Store, rows: map<Place, Row>)
    requires AtRest(m, d) && user in m.stores
    requires StoreRight(s, user, m.capacity, rows, d.rows, false) && s.hash == m.stores[user].hash
    requires forall q :: q != Place(user, key) ==> (q in d.rows <==> q in rows) && (q in d.rows ==> rows[q] == d.rows[q])
    requires Place(user, key) in rows ==> key != ""
    ensures AtRest(m.(rows := rows, stores := m.stores[user := s]), d.(rows := rows))
  {
    hide StoreRight;
    Unswept(s, user, m.capacity, rows, d.rows, rows);
    forall u | u in m.stores && u != user
      ensures StoreRight(m.stores[u], u, m.capacity, rows, rows, false)
    {
      OtherStore(m.stores[u], u, m.capacity, d.rows, rows, Place(user, key));
    }
  }

  // Without a SWEEP the rows from before do not matter.
  lemma Unswept(s: Store, user: string, capacity: nat, now: map<Place, Row>, before: map<Place, Row>, other: map<Place, Row>)
    requires StoreRight(s, user, capacity, now, before, false)
    ensures StoreRight(s, user, capacity, now, other, false)
  {
    hide Keys, Find, Unique;
    forall k | k in Keys(s.cache)
      ensures KeyRight(s, user, k, now, other, false)
    {
      assert KeyRight(s, user, k, now, before, false);
    }
  }

  lemma StoreOf(m: Machine, d: Data, before: Data, at: int, todo: set<string>, user: string)
    requires Agrees(m, d, before, at, todo) && user in m.stores
    ensures StoreRight(m.stores[user], user, m.capacity, d.rows, before.rows, user in todo)
  {
    hide StoreRight, RowsRight, SameButExpired;
  }

  lemma SetRight(m: Machine, d: Data, user: string, key: string, row: Row)
    requires AtRest(m, d) && key != ""
    ensures ApplySet(m, user, key, row).1 == Truth(user in d.users)
    ensures AtRest(ApplySet(m, user, key, row).0, if user in d.users then d.(rows := d.rows[Place(user, key) := row]) else d)
  {
    AgreesFacts(m, d, d, 0, {});
    hide Agrees, StoreRight, Warm;
    if user in m.stores {
      StoreOf(m, d, d, 0, {}, user);
      var s := m.stores[user];
      var rows := d.rows[Place(user, key) := row];
      WarmRight(s, user, m.capacity, d.rows, rows, d.rows, false, key, row);
      WarmHash(m.capacity, s, key, row);
      PlaceChanged(m, d, user, key, Warm(m.capacity, s, key, row), rows);
      var n := m.(rows := rows, stores := m.stores[user := Warm(m.capacity, s, key, row)]);
      assert ApplySet(m, user, key, row).0 == n;
    }
  }

  lemma WarmHash(capacity: nat, s: Store, key: string, row: Row)
    ensures Warm(capacity, s, key, row).hash == s.hash
  {
  }

  lemma SignUpRight(m: Machine, d: Data, user: string, hash: string)
    requires AtRest(m, d)
    ensures ApplySignUp(m, user, hash).1 == Perform(d, user, SignUp(hash)).1
    ensures AtRest(ApplySignUp(m, user, hash).0, Perform(d, user, SignUp(hash)).0)
  {
    hide KeyRight;
    var n := ApplySignUp(m, user, hash).0;
    assert Keys<string>([]) == {};
    forall u | u in n.stores
      ensures StoreRight(n.stores[u], u, n.capacity, d.rows, d.rows, false)
    {
    }
  }

  lemma DeleteRight(m: Machine, d: Data, user: string, key: string, stamp: Option<int>)
    requires AtRest(m, d)
    ensures ApplyDelete(m, user, key, stamp).1 == Perform(d, user, Delete(key, stamp)).1
    ensures AtRest(ApplyDelete(m, user, key, stamp).0, Perform(d, user, Delete(key, stamp)).0)
  {
    AgreesFacts(m, d, d, 0, {});
    hide Agrees, StoreRight, Lookup, Forget, RowsRight;
    if user in m.stores {
      LookupRight(m, d, d, 0, {}, user, key);
      var n := Lookup(m, user, key).0;
      AgreesFacts(n, d, d, 0, {});
      StoreOf(n, d, d, 0, {}, user);
      ForgetRight(n.stores[user], user, n.capacity, d.rows, d.rows, false, key);
      ForgetHash(n.stores[user], key);
      PlaceChanged(n, d, user, key, Forget(n.stores[user], key), d.rows - {Place(user, key)});
    }
  }

  lemma ForgetHash(s: Store, key: string)
    ensures Forget(s, key).hash == s.hash
  {
  }

  // EXPIREAT with a time, PERSIST with None.
  function Reexpire(d: Data, user: string, key: string, at: Option<int>, now: int): (Data, Answer) {
    match at
    case Some(t) => Perform(d, user, ExpireAt(key, t, now))
    case None => Perform(d, user, Persist(key, now))
  }

  predicate Reexpires(d: Data, user: string, key: string, at: Option<int>, now: int) {
    && user in d.users && Place(user, key) in d.rows && !Expired(d.rows[Place(user, key)].expireAt, now)
    && (at.Some? || d.rows[Place(user, key)].expireAt.Some?)
  }

  lemma ReexpireOutcome(d: Data, user: string, key: string, at: Option<int>, now: int)
    ensures Reexpires(d, user, key, at, now) ==>
      Reexpire(d, user, key, at, now) == (d.(rows := d.rows[Place(user, key) := d.rows[Place(user, key)].(expireAt := at)]), Truth(true))
    ensures !Reexpires(d, user, key, at, now) ==> Reexpire(d, user, key, at, now) == (d, Truth(false))
  {
  }

  lemma ExpiryRight(m: Machine, d: Data, user: string, key: string, at: Option<int>, now: int)
    requires AtRest(m, d)
    ensures ApplyExpiry(m, user, key, at, now).1 == Reexpire(d, user, key, at, now).1
    ensures AtRest(ApplyExpiry(m, user, key, at, now).0, Reexpire(d, user, key, at, now).0)
  {
    hide Agrees, StoreRight, Lookup, WithExpiry, SameButExpired, Reexpire;
    AgreesFacts(m, d, d, 0, {});
    ReexpireOutcome(d, user, key, at, now);
    if user in m.stores {
      LookupRight(m, d, d, 0, {}, user, key);
      var (n, item) := Lookup(m, user, key);
      AgreesFacts(n, d, d, 0, {});
      var p := Place(user, key);
      if p in d.rows && !Expired(d.rows[p].expireAt, now) && (at.Some? || d.rows[p].expireAt.Some?) {
        StoreOf(n, d, d, 0, {}, user);
        var s := n.stores[user];
        var rows := d.rows[p := d.rows[p].(expireAt := at)];
        ReexpireRight(s, user, n.capacity, d.rows, d.rows, key, at);
        PlaceChanged(n, d, user, key, s.(expiry := WithExpiry(s.expiry, key, at)), rows);
      }
    }
  }

  // ------------------------------------------------------------ SWEEP

  // The database half: the same count as on the plain map, and every store to do.
  lemma SweepRowsRight(m: Machine, d: Data, at: int)
    requires AtRest(m, d)
    ensures Count(SweepRows(m, at).1) == Perform(d, "", Sweep(at)).1
    ensures Agrees(SweepRows(m, at).0, Perform(d, "", Sweep(at)).0, d, at, m.stores.Keys)
  {
    hide Keys, Find, Unique;
    var n, e := SweepRows(m, at).0, Perform(d, "", Sweep(at)).0;
    forall u | u in n.stores
      ensures StoreRight(n.stores[u], u, n.capacity, e.rows, d.rows, true)
    {
      forall k | k in Keys(n.stores[u].cache)
        ensures KeyRight(n.stores[u], u, k, e.rows, d.rows, true)
      {
        assert KeyRight(m.stores[u], u, k, d.rows, d.rows, false);
      }
    }
  }

  lemma SweepStoreRight(m: Machine, d: Data, before: Data, at: int, todo: set<string>, user: string)
    requires Agrees(m, d, before, at, todo) && user in todo && user in m.stores
    ensures SweepStore(m, user, at).1 == 0
    ensures Agrees(SweepStore(m, user, at).0, d, before, at, todo - {user})
  {
    hide StoreRight, SweptStore;
    SweptRight(m.stores[user], user, m.capacity, d.rows, before.rows, at);
    SweptHash(m.stores[user], at);
  }

  lemma SweptHash(s: Store, at: int)
    ensures SweptStore(s, at).hash == s.hash
  {
  }

  // All stores swept: at rest again.
  lemma SweepDone(m: Machine, d: Data, before: Data, at: int)
    requires Agrees(m, d, before, at, {})
    ensures AtRest(m, d)
  {
    hide StoreRight;
    forall u | u in m.stores
      ensures StoreRight(m.stores[u], u, m.capacity, d.rows, d.rows, false)
    {
      Unswept(m.stores[u], u, m.capacity, d.rows, before.rows, d.rows);
    }
  }

  // Without reads in between, the two halves make the whole command.
  lemma SweepRight(m: Machine, d: Data, at: int)
    requires AtRest(m, d)
    ensures ApplySweep(m, at).1 == Perform(d, "", Sweep(at)).1
    ensures AtRest(ApplySweep(m, at).0, Perform(d, "", Sweep(at)).0)
  {
    var n, e := SweepRows(m, at).0, Perform(d, "", Sweep(at)).0;
    SweepRowsRight(m, d, at);
    AgreesFacts(m, d, d, 0, {});
    AgreesFacts(n, e, d, at, m.stores.Keys);
    hide StoreRight, SweptStore, RowsRight;
    var r := ApplySweep(m, at).0;
    forall u | u in r.stores
      ensures r.stores[u].hash == e.users[u]
      ensures StoreRight(r.stores[u], u, r.capacity, e.rows, e.rows, false)
    {
      SweptRight(n.stores[u], u, n.capacity, e.rows, d.rows, at);
      SweptHash(n.stores[u], at);
      Unswept(r.stores[u], u, r.capacity, e.rows, d.rows, e.rows);
    }
  }

  // Every command gives the answer of the plain map, and the machine still agrees.
  lemma ApplyRight(m: Machine, d: Data, user: string, op: Operation)
    requires AtRest(m, d) && KeyGiven(op)
    ensures Apply(m, user, op).1 == Perform(d, user, op).1
    ensures AtRest(Apply(m, user, op).0, Perform(d, user, op).0)
  {
    hide Agrees, AtRest, ApplySet, ApplyDelete, ApplyExpiry, ApplySweep, ApplySignUp;
    match op
    case SignUp(hash) => SignUpRight(m, d, user, hash);
    case Set(key, value) => SetRight(m, d, user, key, Row(value, None));
    case SetEx(key, expireAt, value) => SetRight(m, d, user, key, Row(value, Some(expireAt)));
    case Delete(key, stamp) => DeleteRight(m, d, user, key, stamp);
    case ExpireAt(key, expireAt, now) => ExpiryRight(m, d, user, key, Some(expireAt), now);
    case Persist(key, now) => ExpiryRight(m, d, user, key, None, now);
    case Sweep(now) => SweepRight(m, d, now);
    case Unknown =>
  }

  // ------------------------------------------------------------ Whole runs

  // What happens to the machine: the applier writes, sweeps the rows, then sweeps one
  // store after another; readers look at any time.
  datatype Event =
    | Write(user: string, op: Operation)
    | SweepTheRows(at: int)
    | SweepTheStore(user: string)
    | Look(user: string, key: string, now: int)

  // todo: the stores the sweep under way has still to do.
  datatype Running = Running(m: Machine, at: int, todo: set<string>)

  ghost predicate Allowed(r: Running, e: Event) {
    match e
    case Write(_, op) => r.todo == {} && !op.Sweep? && KeyGiven(op)
    case SweepTheRows(_) => r.todo == {}
    case SweepTheStore(user) => user in r.todo && user in r.m.stores
    case Look(_, _, _) => true
  }

  datatype Outcome = Answered(a: Answer) | Looked(value: Option<string>)

  function Happen(r: Running, e: Event): (Running, Outcome)
    requires e.SweepTheStore? ==> e.user in r.m.stores
  {
    match e
    case Write(user, op) => var (m, a) := Apply(r.m, user, op); (r.(m := m), Answered(a))
    case SweepTheRows(at) => var (m, removed) := SweepRows(r.m, at); (Running(m, at, m.stores.Keys), Answered(Count(removed)))
    case SweepTheStore(user) => var (m, removed) := SweepStore(r.m, user, r.at); (r.(m := m, todo := r.todo - {user}), Answered(Count(removed)))
    case Look(user, key, now) => var (m, value) := Get(r.m, user, key, now); (r.(m := m), Looked(value))
  }

  // The same on the plain map: a sweep is done with its database half.
  function HappenPlain(d: Data, e: Event): (Data, Outcome) {
    match e
    case Write(user, op) => var (x, a) := Perform(d, user, op); (x, Answered(a))
    case SweepTheRows(at) => var (x, a) := Perform(d, "", Sweep(at)); (x, Answered(a))
    case SweepTheStore(_) => (d, Answered(Count(0)))
    case Look(user, key, now) => (d, Looked(Read(d, user, key, now)))
  }

  ghost predicate IsRun(rs: seq<Running>, es: seq<Event>) {
    && |rs| == |es| + 1
    && forall i :: 0 <= i < |es| ==> Allowed(rs[i], es[i]) && rs[i + 1] == Happen(rs[i], es[i]).0
  }

  function PlainAfter(d: Data, es: seq<Event>): Data {
    if es == [] then d else HappenPlain(PlainAfter(d, es[..|es| - 1]), es[|es| - 1]).0
  }

  lemma HappenRight(r: Running, d: Data, before: Data, e: Event) returns (earlier: Data)
    requires Agrees(r.m, d, before, r.at, r.todo) && Allowed(r, e)
    ensures
      var (s, o) := Happen(r, e);
      var (x, p) := HappenPlain(d, e);
      && Agrees(s.m, x, earlier, s.at, s.todo)
      && (o == p || (e.Look? && e.user in r.todo && e.now < r.at && o == Looked(Read(before, e.user, e.key, e.now))))
    ensures earlier == if e.Write? then HappenPlain(d, e).0 else if e.SweepTheRows? then d else before
  {
    hide Agrees, Apply, SweepRows, SweepStore, Get, Perform, Read;
    earlier := before;
    match e
    case Write(user, op) =>
      SweepDone(r.m, d, before, r.at);
      ApplyRight(r.m, d, user, op);
      earlier := HappenPlain(d, e).0;
      AnyTime(Happen(r, e).0.m, earlier, r.at);
    case SweepTheRows(at) =>
      SweepDone(r.m, d, before, r.at);
      SweepRowsRight(r.m, d, at);
      SameStores(r.m, at);
      earlier := d;
    case SweepTheStore(user) => SweepStoreRight(r.m, d, before, r.at, r.todo, user);
    case Look(user, key, now) => GetRight(r.m, d, before, r.at, r.todo, user, key, now);
  }

  lemma SameStores(m: Machine, at: int)
    ensures SweepRows(m, at).0.stores == m.stores
  {
  }

  // At rest the time of the last sweep does not matter.
  lemma AnyTime(m: Machine, d: Data, at: int)
    requires AtRest(m, d)
    ensures Agrees(m, d, d, at, {})
  {
    hide StoreRight;
  }

  // The data from before the database half of the last sweep, until a write comes.
  function DataBefore(d: Data, es: seq<Event>): Data {
    if es == [] then d
    else
      match es[|es| - 1]
      case Write(_, _) => PlainAfter(d, es)
      case SweepTheRows(_) => PlainAfter(d, es[..|es| - 1])
      case _ => DataBefore(d, es[..|es| - 1])
  }

  // What an event may come out as: as on the plain map; or, for a read of a store still
  // to be swept with its clock behind the sweep, as on the data from before.
  ghost predicate OutcomeRight(r: Running, e: Event, now: Data, before: Data)
    requires e.SweepTheStore? ==> e.user in r.m.stores
  {
    || Happen(r, e).1 == HappenPlain(now, e).1
    || (e.Look? && e.user in r.todo && e.now < r.at && Happen(r, e).1 == HappenPlain(before, e).1)
  }

  // In every run every write, every sweep and every read has the result of the plain
  // map; only a read in an unswept store with its clock behind the sweep may still see
  // the data from before the database half.
  lemma {:induction false} RunRight(rs: seq<Running>, es: seq<Event>, d: Data)
    requires IsRun(rs, es) && AtRest(rs[0].m, d) && rs[0].todo == {}
    ensures var last := rs[|es|]; Agrees(last.m, PlainAfter(d, es), DataBefore(d, es), last.at, last.todo)
    ensures forall i :: 0 <= i < |es| ==> Allowed(rs[i], es[i]) && OutcomeRight(rs[i], es[i], PlainAfter(d, es[..i]), DataBefore(d, es[..i]))
    decreases |es|
  {
    hide Agrees, Happen, HappenPlain, AtRest, OutcomeRight;
    if es == [] {
      RestAgrees(rs[0].m, d, rs[0].at);
    } else {
      var n := |es| - 1;
      RunRight(rs[..n + 1], es[..n], d);
      assert Allowed(rs[n], es[n]) && rs[n + 1] == Happen(rs[n], es[n]).0;
      EventRight(rs[n], PlainAfter(d, es[..n]), DataBefore(d, es[..n]), es[n]);
      BeforeAfter(d, es);
      forall i | 0 <= i < n
        ensures Allowed(rs[i], es[i]) && OutcomeRight(rs[i], es[i], PlainAfter(d, es[..i]), DataBefore(d, es[..i]))
      {
        assert es[..n][..i] == es[..i];
      }
    }
  }

  lemma BeforeAfter(d: Data, es: seq<Event>)
    requires es != []
    ensures var n := |es| - 1;
      DataBefore(d, es) ==
        if es[n].Write? then HappenPlain(PlainAfter(d, es[..n]), es[n]).0
        else if es[n].SweepTheRows? then PlainAfter(d, es[..n]) else DataBefore(d, es[..n])
  {
    hide HappenPlain;
  }

  lemma EventRight(r: Running, d: Data, before: Data, e: Event)
    requires Agrees(r.m, d, before, r.at, r.todo) && Allowed(r, e)
    ensures
      var (s, x) := (Happen(r, e).0, HappenPlain(d, e).0);
      Agrees(s.m, x, if e.Write? then x else if e.SweepTheRows? then d else before, s.at, s.todo)
    ensures OutcomeRight(r, e, d, before)
  {
    hide Agrees;
    var earlier := HappenRight(r, d, before, e);
  }

  lemma RestAgrees(m: Machine, d: Data, at: int)
    requires AtRest(m, d)
    ensures Agrees(m, d, d, at, {})
  {
    AnyTime(m, d, at);
  }

  // A fresh machine over an empty database agrees with the empty map.
  lemma StartsAgreeing(capacity: nat)
    requires capacity >= 1
    ensures AtRest(Machine(true, capacity, map[], map[], map[]), Data(map[], map[]))
  {
  }

  // ------------------------------------------------------------ Where it fails

  // With an empty key the row is written, then the cache refuses the key: the answer
  // is the plain map's exactly when a key is given or the user is unknown.
  lemma EmptyKeyRaises(m: Machine, d: Data, user: string, key: string, row: Row)
    requires AtRest(m, d)
    ensures (ApplySet(m, user, key, row).1 == Truth(user in d.users)) <==> (key != "" || user !in d.users)
    ensures key == "" && user in d.users ==>
      Place(user, "") in ApplySet(m, user, key, row).0.rows && ApplySet(m, user, key, row).1 == Raised
  {
    AgreesFacts(m, d, d, 0, {});
  }
}
