// Snapshots of the state machine: what a dump holds, and that loading it brings back
// the same users, values, recency order, expiries of cached keys and sessions.
module Snapshots {
  import opened Types
  import opened Recency
  import opened PlainMaps
  import opened Machines
  import opened Sessions
  import opened Databases
  import opened WriteThrough

  // Some order in which a dictionary is walked.
  ghost predicate Enumerates<K(!new)>(s: seq<K>, keys: set<K>) {
    && (forall i, j :: 0 <= i < j < |s| ==> s[i] != s[j])
    && (forall i :: 0 <= i < |s| ==> s[i] in keys)
    && (forall k :: k in keys ==> k in s)
  }

  // The part of a dictionary whose keys are listed.
  function Part<K, V>(m: map<K, V>, s: seq<K>): map<K, V> {
    map k | k in m && k in s :: m[k]
  }

  lemma PartNone<K, V>(m: map<K, V>)
    ensures Part(m, []) == map[]
  {
  }

  lemma PartPush<K, V>(m: map<K, V>, s: seq<K>, n: nat)
    requires n < |s| && s[n] in m
    ensures Part(m, s[..n + 1]) == Part(m, s[..n])[s[n] := m[s[n]]]
    ensures s[n] in s[..n] || s[n] !in Part(m, s[..n])
  {
    assert s[..n + 1] == s[..n] + [s[n]];
  }

  lemma PartAll<K(!new), V>(m: map<K, V>, s: seq<K>)
    requires Enumerates(s, m.Keys)
    ensures Part(m, s) == m && s[..|s|] == s
  {
  }

  lemma NotYet<K(!new)>(s: seq<K>, keys: set<K>, n: nat)
    requires Enumerates(s, keys) && n < |s|
    ensures s[n] in keys && s[n] !in s[..n]
  {
  }

  // ------------------------------------------------------------ Writing

  function StoreLines(user: string, cache: Items<string>, expiry: map<string, int>): seq<Line> {
    if cache == [] then []
    else
      var e := cache[|cache| - 1];
      StoreLines(user, cache[..|cache| - 1], expiry) + [EntryLine(user, e.0, e.1, ExpiryOf(expiry, e.0))]
  }

  function UserLines(users: seq<string>, stores: map<string, Store>): seq<Line>
    requires forall i :: 0 <= i < |users| ==> users[i] in stores
  {
    if users == [] then []
    else UserLines(users[..|users| - 1], stores) + [UserLine(users[|users| - 1], stores[users[|users| - 1]].hash)]
  }

  function EntryLines(users: seq<string>, stores: map<string, Store>): seq<Line>
    requires forall i :: 0 <= i < |users| ==> users[i] in stores
  {
    if users == [] then []
    else
      var u := users[|users| - 1];
      EntryLines(users[..|users| - 1], stores) + StoreLines(u, stores[u].cache, stores[u].expiry)
  }

  function SessionLines(clients: seq<string>, table: Table): seq<Line>
    requires forall i :: 0 <= i < |clients| ==> clients[i] in table
  {
    if clients == [] then []
    else SessionLines(clients[..|clients| - 1], table) + [SessionLine(clients[|clients| - 1], table[clients[|clients| - 1]])]
  }

  // All users, then all entries, then all sessions.
  ghost predicate IsDump(lines: seq<Line>, stores: map<string, Store>, table: Table) {
    exists users, clients ::
      && Enumerates(users, stores.Keys) && Enumerates(clients, table.Keys)
      && lines == UserLines(users, stores) + EntryLines(users, stores) + SessionLines(clients, table)
  }

  // ------------------------------------------------------------ Reading

  datatype Restored = Restored(stores: map<string, Store>, table: Table)

  // None: an entry of an unknown user, or with an empty key.
  function RestoreLine(r: Restored, capacity: nat, line: Line): Option<Restored> {
    match line
    case UserLine(user, hash) => Some(r.(stores := r.stores[user := Store(hash, [], map[])]))
    case EntryLine(user, key, value, expireAt) =>
      if user !in r.stores || key == "" then None
      else
        var s := r.stores[user];
        var expiry := if expireAt.Some? then s.expiry[key := expireAt.value] else s.expiry;
        Some(r.(stores := r.stores[user := Store(s.hash, Put(capacity, s.cache, key, value), expiry)]))
    case SessionLine(client, session) => Some(r.(table := r.table[client := session]))
    case BlankLine => Some(r)
  }

  function RestoreFrom(r: Restored, capacity: nat, lines: seq<Line>): Option<Restored> {
    if lines == [] then Some(r)
    else
      var b := RestoreFrom(r, capacity, lines[..|lines| - 1]);
      if b.None? then None else RestoreLine(b.value, capacity, lines[|lines| - 1])
  }

  // What a snapshot keeps of a store: expiries of evicted keys are dropped.
  function Trimmed(s: Store): Store {
    s.(expiry := map k | k in s.expiry && k in Keys(s.cache) :: s.expiry[k])
  }

  ghost predicate Restorable(s: Store, capacity: nat) {
    Unique(s.cache) && |s.cache| <= capacity && "" !in Keys(s.cache)
  }

  lemma {:induction false} RestoreAppend(r: Restored, capacity: nat, a: seq<Line>, b: seq<Line>)
    ensures RestoreFrom(r, capacity, a + b) ==
      (var m := RestoreFrom(r, capacity, a); if m.None? then None else RestoreFrom(m.value, capacity, b))
  {
    hide RestoreLine;
    if b == [] {
      assert a + b == a;
    } else {
      assert (a + b)[..|a + b| - 1] == a + b[..|b| - 1];
      RestoreAppend(r, capacity, a, b[..|b| - 1]);
    }
  }

  lemma RestorePush(r: Restored, capacity: nat, a: seq<Line>, x: Line)
    ensures RestoreFrom(r, capacity, a + [x]) ==
      (var m := RestoreFrom(r, capacity, a); if m.None? then None else RestoreLine(m.value, capacity, x))
  {
    assert (a + [x])[..|a|] == a;
  }

  // The first n entries of a user's store are back.
  function Refilled(r: Restored, user: string, s: Store, n: nat): Restored
    requires n <= |s.cache|
  {
    r.(stores := r.stores[user := Trimmed(Store(s.hash, s.cache[..n], s.expiry))])
  }

  lemma {:induction false} RestoreFails(r: Restored, capacity: nat, lines: seq<Line>, i: nat)
    requires i <= |lines| && RestoreFrom(r, capacity, lines[..i]).None?
    ensures RestoreFrom(r, capacity, lines).None?
    decreases |lines| - i
  {
    if i < |lines| {
      assert lines[..i + 1][..i] == lines[..i];
      RestoreFails(r, capacity, lines, i + 1);
    } else {
      assert lines[..i] == lines;
    }
  }

  // A line that no node without a database accepts: an entry whose user has not come yet,
  // or without a key.
  predicate Unloadable(before: seq<Line>, line: Line) {
    line.EntryLine? && (line.key == "" || !NamesUser(before, line.user))
  }

  lemma {:induction false} RestoredNames(capacity: nat, lines: seq<Line>)
    requires RestoreFrom(Restored(map[], map[]), capacity, lines).Some?
    ensures forall u :: u in RestoreFrom(Restored(map[], map[]), capacity, lines).value.stores <==> NamesUser(lines, u)
  {
    hide Put;
    if lines != [] {
      var b, x := lines[..|lines| - 1], lines[|lines| - 1];
      RestoredNames(capacity, b);
      hide RestoreFrom;
      assert lines == b + [x];
      NamesPush(b, x);
    }
  }

  // A restore fails if and only if some line cannot be loaded behind those before it.
  lemma {:induction false} RestoreFailsIff(capacity: nat, lines: seq<Line>)
    ensures RestoreFrom(Restored(map[], map[]), capacity, lines).None? <==> exists i :: 0 <= i < |lines| && Unloadable(lines[..i], lines[i])
  {
    hide Unloadable;
    if lines != [] {
      var n := |lines| - 1;
      var b := lines[..n];
      RestoreFailsIff(capacity, b);
      assert forall i :: 0 <= i < n ==> b[..i] == lines[..i] && b[i] == lines[i];
      if RestoreFrom(Restored(map[], map[]), capacity, b).Some? {
        LastLineDecides(capacity, b, lines[n]);
        assert lines[..n] == b;
      } else {
        var i :| 0 <= i < |b| && Unloadable(b[..i], b[i]);
        assert Unloadable(lines[..i], lines[i]);
      }
    }
  }

  lemma LastLineDecides(capacity: nat, b: seq<Line>, x: Line)
    requires RestoreFrom(Restored(map[], map[]), capacity, b).Some?
    ensures RestoreLine(RestoreFrom(Restored(map[], map[]), capacity, b).value, capacity, x).None? <==> Unloadable(b, x)
  {
    hide Put;
    RestoredNames(capacity, b);
  }

  // One user's entries rebuild the cache in its order.
  lemma {:induction false} StoreRestored(r: Restored, capacity: nat, user: string, s: Store, n: nat)
    requires Restorable(s, capacity) && n <= |s.cache|
    requires user in r.stores && r.stores[user] == Store(s.hash, [], map[])
    ensures RestoreFrom(r, capacity, StoreLines(user, s.cache[..n], s.expiry)) == Some(Refilled(r, user, s, n))
    decreases n
  {
    hide RestoreLine, Restorable, Refilled;
    if n == 0 {
      RefilledNone(r, user, s);
    } else {
      var c, e := s.cache[..n], s.cache[n - 1];
      assert c[..n - 1] == s.cache[..n - 1] && c[n - 1] == e;
      StoreRestored(r, capacity, user, s, n - 1);
      RestorePush(r, capacity, StoreLines(user, s.cache[..n - 1], s.expiry), EntryLine(user, e.0, e.1, ExpiryOf(s.expiry, e.0)));
      NextRestored(r, capacity, user, s, n);
    }
  }

  lemma RefilledNone(r: Restored, user: string, s: Store)
    requires user in r.stores && r.stores[user] == Store(s.hash, [], map[])
    ensures Refilled(r, user, s, 0) == r
  {
    NoKeys<string>();
    assert s.cache[..0] == [];
    assert Trimmed(Store(s.hash, [], s.expiry)) == Store(s.hash, [], map[]);
    assert r.stores[user := r.stores[user]] == r.stores;
  }

  lemma NextRestored(r: Restored, capacity: nat, user: string, s: Store, n: nat)
    requires Restorable(s, capacity) && 1 <= n <= |s.cache| && user in r.stores
    ensures
      var e := s.cache[n - 1];
      RestoreLine(Refilled(r, user, s, n - 1), capacity, EntryLine(user, e.0, e.1, ExpiryOf(s.expiry, e.0))) == Some(Refilled(r, user, s, n))
  {
    hide Keys, Unique;
    var e := s.cache[n - 1];
    var before, c := s.cache[..n - 1], s.cache[..n];
    assert c == before + [e];
    KeysPush(before, e.0, e.1);
    KeyIsNew(s.cache, n - 1);
    assert e in s.cache;
    KeysOf(s.cache);
    TrimmedPush(s, n);
    assert Put(capacity, before, e.0, e.1) == c;
    assert e.0 != "";
    assert Refilled(r, user, s, n - 1).stores[user := Trimmed(Store(s.hash, c, s.expiry))] == r.stores[user := Trimmed(Store(s.hash, c, s.expiry))];
  }

  lemma TrimmedPush(s: Store, n: nat)
    requires 1 <= n <= |s.cache|
    ensures var e := s.cache[n - 1];
      Trimmed(Store(s.hash, s.cache[..n], s.expiry)).expiry ==
        (var x := Trimmed(Store(s.hash, s.cache[..n - 1], s.expiry)).expiry; if e.0 in s.expiry then x[e.0 := s.expiry[e.0]] else x)
  {
    hide Keys;
    var e := s.cache[n - 1];
    assert s.cache[..n] == s.cache[..n - 1] + [e];
    KeysPush(s.cache[..n - 1], e.0, e.1);
  }

  lemma KeyIsNew(s: Items<string>, i: nat)
    requires Unique(s) && i < |s|
    ensures s[i].0 !in Keys(s[..i])
  {
  }

  // The users with their passwords and nothing else.
  function Emptied(stores: map<string, Store>): map<string, Store> {
    map u | u in stores :: Store(stores[u].hash, [], map[])
  }

  lemma {:induction false} UsersRestored(capacity: nat, users: seq<string>, stores: map<string, Store>, n: nat)
    requires Enumerates(users, stores.Keys) && n <= |users|
    ensures RestoreFrom(Restored(map[], map[]), capacity, UserLines(users[..n], stores)) == Some(Restored(Part(Emptied(stores), users[..n]), map[]))
    decreases n
  {
    hide Enumerates, Part;
    NotYetAll(users, stores.Keys);
    if n == 0 {
      PartNone(Emptied(stores));
    } else {
      var u := users[n - 1];
      UsersRestored(capacity, users, stores, n - 1);
      assert users[..n][..n - 1] == users[..n - 1];
      RestorePush(Restored(map[], map[]), capacity, UserLines(users[..n - 1], stores), UserLine(u, stores[u].hash));
      PartPush(Emptied(stores), users, n - 1);
    }
  }

  lemma NotYetAll<K(!new)>(s: seq<K>, keys: set<K>)
    requires Enumerates(s, keys)
    ensures forall i :: 0 <= i < |s| ==> s[i] in keys
  {
  }

  // Empty stores, those of the first users filled again.
  function Filled(stores: map<string, Store>, users: seq<string>): map<string, Store> {
    map u | u in stores :: if u in users then Trimmed(stores[u]) else Store(stores[u].hash, [], map[])
  }

  lemma {:induction false} EntriesRestored(capacity: nat, users: seq<string>, stores: map<string, Store>)
    requires forall i :: 0 <= i < |users| ==> users[i] in stores
    requires forall i, j :: 0 <= i < j < |users| ==> users[i] != users[j]
    requires forall u :: u in stores ==> Restorable(stores[u], capacity)
    ensures RestoreFrom(Restored(Filled(stores, []), map[]), capacity, EntryLines(users, stores)) == Some(Restored(Filled(stores, users), map[]))
  {
    hide Trimmed, Restorable, RestoreLine;
    if users != [] {
      var t, u := users[..|users| - 1], users[|users| - 1];
      EntriesRestored(capacity, t, stores);
      assert u !in t;
      var r, s := Restored(Filled(stores, t), map[]), stores[u];
      StoreRestored(r, capacity, u, s, |s.cache|);
      assert s.cache[..|s.cache|] == s.cache && s == Store(s.hash, s.cache, s.expiry);
      assert Refilled(r, u, s, |s.cache|) == r.(stores := r.stores[u := Trimmed(s)]);
      RestoreAppend(Restored(Filled(stores, []), map[]), capacity, EntryLines(t, stores), StoreLines(u, s.cache, s.expiry));
      assert users == t + [u];
      assert Filled(stores, users) == Filled(stores, t)[u := Trimmed(s)];
    }
  }

  lemma {:induction false} SessionsRestored(r: Restored, capacity: nat, clients: seq<string>, table: Table, n: nat)
    requires Enumerates(clients, table.Keys) && n <= |clients| && r.table == map[]
    ensures RestoreFrom(r, capacity, SessionLines(clients[..n], table)) == Some(Restored(r.stores, Part(table, clients[..n])))
    decreases n
  {
    hide Enumerates, Part;
    NotYetAll(clients, table.Keys);
    if n == 0 {
      PartNone(table);
    } else {
      var c := clients[n - 1];
      SessionsRestored(r, capacity, clients, table, n - 1);
      assert clients[..n][..n - 1] == clients[..n - 1];
      RestorePush(r, capacity, SessionLines(clients[..n - 1], table), SessionLine(c, table[c]));
      PartPush(table, clients, n - 1);
    }
  }

  // restore after snapshot: the same users, values, recency order and sessions, and the
  // expiry of every cached key.
  lemma RoundTrip(lines: seq<Line>, capacity: nat, stores: map<string, Store>, table: Table)
    requires IsDump(lines, stores, table)
    requires forall u :: u in stores ==> Restorable(stores[u], capacity)
    ensures RestoreFrom(Restored(map[], map[]), capacity, lines) == Some(Restored(map u | u in stores :: Trimmed(stores[u]), table))
  {
    var users, clients :| Enumerates(users, stores.Keys) && Enumerates(clients, table.Keys)
      && lines == UserLines(users, stores) + EntryLines(users, stores) + SessionLines(clients, table);
    RoundTripInOrder(users, clients, capacity, stores, table);
  }

  lemma RoundTripInOrder(users: seq<string>, clients: seq<string>, capacity: nat, stores: map<string, Store>, table: Table)
    requires Enumerates(users, stores.Keys) && Enumerates(clients, table.Keys)
    requires forall u :: u in stores ==> Restorable(stores[u], capacity)
    ensures RestoreFrom(Restored(map[], map[]), capacity, UserLines(users, stores) + EntryLines(users, stores) + SessionLines(clients, table))
      == Some(Restored(map u | u in stores :: Trimmed(stores[u]), table))
  {
    var none, full := Restored(map[], map[]), Restored(Filled(stores, users), map[]);
    NoRepeats(users, stores.Keys);
    FilledAll(stores, users);
    hide Trimmed, Restorable, RestoreLine, RestoreFrom, Enumerates, Part, UserLines, EntryLines, SessionLines, Filled, Emptied;
    UsersRestored(capacity, users, stores, |users|);
    PartAll(Emptied(stores), users);
    EntriesRestored(capacity, users, stores);
    SessionsRestored(full, capacity, clients, table, |clients|);
    PartAll(table, clients);
    RestoreAppend(none, capacity, UserLines(users, stores), EntryLines(users, stores));
    RestoreAppend(none, capacity, UserLines(users, stores) + EntryLines(users, stores), SessionLines(clients, table));
  }

  lemma NoRepeats(s: seq<string>, keys: set<string>)
    requires Enumerates(s, keys)
    ensures (forall i, j :: 0 <= i < j < |s| ==> s[i] != s[j]) && forall i :: 0 <= i < |s| ==> s[i] in keys
  {
  }

  lemma FilledAll(stores: map<string, Store>, users: seq<string>)
    requires Enumerates(users, stores.Keys)
    ensures Filled(stores, users) == map u | u in stores :: Trimmed(stores[u])
    ensures Filled(stores, []) == Emptied(stores) && Emptied(stores).Keys == stores.Keys
  {
    hide Trimmed;
  }

  // ------------------------------------------------------------ Orphan expiries do not matter

  // The same caches, and the same expiry for every cached key.
  ghost predicate SameCached(s: Store, t: Store) {
    && s.hash == t.hash && s.cache == t.cache
    && forall k :: k in Keys(s.cache) ==> ExpiryOf(s.expiry, k) == ExpiryOf(t.expiry, k)
  }

  ghost predicate SameButOrphans(m: Machine, n: Machine) {
    && !m.useDb && !n.useDb && m.capacity == n.capacity >= 1
    && m.users == n.users && m.rows == n.rows
    && m.stores.Keys == n.stores.Keys
    && forall u :: u in m.stores ==> SameCached(m.stores[u], n.stores[u]) && Unique(m.stores[u].cache) && |m.stores[u].cache| <= m.capacity
  }

  lemma RestoredSameButOrphans(m: Machine, stores: map<string, Store>)
    requires !m.useDb && m.capacity >= 1 && forall u :: u in m.stores ==> Restorable(m.stores[u], m.capacity)
    requires stores == map u | u in m.stores :: Trimmed(m.stores[u])
    ensures SameButOrphans(m, m.(stores := stores))
  {
  }

  lemma SameWarm(capacity: nat, s: Store, t: Store, key: string, row: Row)
    requires SameCached(s, t) && Unique(s.cache) && |s.cache| <= capacity && capacity >= 1
    ensures SameCached(Warm(capacity, s, key, row), Warm(capacity, t, key, row))
    ensures Unique(Warm(capacity, s, key, row).cache) && |Warm(capacity, s, key, row).cache| <= capacity
  {
    hide Keys, Put, Unique;
    PutFacts(capacity, s.cache, key, row.value);
  }

  lemma SameTouched(s: Store, t: Store, key: string)
    requires SameCached(s, t) && Unique(s.cache)
    ensures var c := Touch(s.cache, key); SameCached(s.(cache := c), t.(cache := c)) && Unique(c) && |c| == |s.cache|
  {
    hide Keys, Touch, Unique;
    TouchFacts(s.cache, key);
  }

  lemma SameForgotten(s: Store, t: Store, key: string)
    requires SameCached(s, t) && Unique(s.cache)
    ensures SameCached(Forget(s, key), Forget(t, key)) && Unique(Forget(s, key).cache) && |Forget(s, key).cache| <= |s.cache|
  {
    hide Keys, Without, Unique;
    WithoutKeys(s.cache, key);
    WithoutUnique(s.cache, key);
  }

  lemma SameSwept(s: Store, t: Store, at: int)
    requires SameCached(s, t) && Unique(s.cache)
    ensures SameCached(SweptStore(s, at), SweptStore(t, at)) && Unique(SweptStore(s, at).cache) && |SweptStore(s, at).cache| <= |s.cache|
    ensures forall k :: k in Keys(s.cache) ==> (k in ExpiredKeys(s, at) <==> k in ExpiredKeys(t, at))
  {
    hide Keys, Keep, Unique;
    KeepUnique(s.cache, Keys(s.cache) - ExpiredKeys(s, at));
    forall k | k in Keys(s.cache)
      ensures k in ExpiredKeys(s, at) <==> k in ExpiredKeys(t, at)
    {
      assert ExpiryOf(s.expiry, k) == ExpiryOf(t.expiry, k);
    }
    assert Keys(s.cache) - ExpiredKeys(s, at) == Keys(t.cache) - ExpiredKeys(t, at);
  }

  lemma SameLookup(m: Machine, n: Machine, user: string, key: string)
    requires SameButOrphans(m, n) && user in m.stores
    ensures user in Lookup(m, user, key).0.stores && user in Lookup(n, user, key).0.stores
    ensures Lookup(m, user, key).1 == Lookup(n, user, key).1
    ensures SameButOrphans(Lookup(m, user, key).0, Lookup(n, user, key).0)
  {
    hide Keys, Touch, Unique, Put;
    SameTouched(m.stores[user], n.stores[user], key);
  }

  // Every later read and command gives the same answer with and without them.
  lemma SameGet(m: Machine, n: Machine, user: string, key: string, at: int)
    requires SameButOrphans(m, n)
    ensures Get(m, user, key, at).1 == Get(n, user, key, at).1
    ensures SameButOrphans(Get(m, user, key, at).0, Get(n, user, key, at).0)
  {
    hide Lookup, SameCached, Unique;
    if user in m.stores {
      SameLookup(m, n, user, key);
    }
  }

  lemma SameSweep(m: Machine, n: Machine, at: int)
    requires SameButOrphans(m, n)
    ensures ApplySweep(m, at).1 == ApplySweep(n, at).1
    ensures SameButOrphans(ApplySweep(m, at).0, ApplySweep(n, at).0)
  {
    hide Keys, SweptStore, ExpiredKeys, Unique;
    forall u | u in m.stores
      ensures SameCached(SweptStore(m.stores[u], at), SweptStore(n.stores[u], at))
      ensures Unique(SweptStore(m.stores[u], at).cache) && |SweptStore(m.stores[u], at).cache| <= |m.stores[u].cache|
    {
      SameSwept(m.stores[u], n.stores[u], at);
    }
    SameSweptPlaces(m, n, at);
  }

  lemma SameSweptPlaces(m: Machine, n: Machine, at: int)
    requires SameButOrphans(m, n)
    ensures SweptPlaces(m, at) == SweptPlaces(n, at)
  {
    hide Keys, Unique;
    forall p
      ensures p in SweptPlaces(m, at) <==> p in SweptPlaces(n, at)
    {
      if p.user in m.stores {
        SameSwept(m.stores[p.user], n.stores[p.user], at);
      }
    }
  }

  lemma SameApply(m: Machine, n: Machine, user: string, op: Operation)
    requires SameButOrphans(m, n)
    ensures Machines.Apply(m, user, op).1 == Machines.Apply(n, user, op).1
    ensures SameButOrphans(Machines.Apply(m, user, op).0, Machines.Apply(n, user, op).0)
  {
    hide Keys, Lookup, Unique, Put, Warm, Forget, SameCached, ApplySweep, WithExpiry;
    NothingCached(user);
    if op.Sweep? {
      SameSweep(m, n, op.now);
    } else if user in m.stores {
      var s, t := m.stores[user], n.stores[user];
      match op {
        case Set(key, value) => SameWarm(m.capacity, s, t, key, Row(value, None));
        case SetEx(key, expireAt, value) => SameWarm(m.capacity, s, t, key, Row(value, Some(expireAt)));
        case Delete(key, stamp) =>
          SameLookup(m, n, user, key);
          var m', n' := Lookup(m, user, key).0, Lookup(n, user, key).0;
          SameForgotten(m'.stores[user], n'.stores[user], key);
        case ExpireAt(key, expireAt, now) =>
          SameLookup(m, n, user, key);
          var m', n' := Lookup(m, user, key).0, Lookup(n, user, key).0;
          SameReexpired(m'.stores[user], n'.stores[user], key, Some(expireAt));
        case Persist(key, now) =>
          SameLookup(m, n, user, key);
          var m', n' := Lookup(m, user, key).0, Lookup(n, user, key).0;
          SameReexpired(m'.stores[user], n'.stores[user], key, None);
        case _ =>
      }
    }
  }

  lemma SameReexpired(s: Store, t: Store, key: string, at: Option<int>)
    requires SameCached(s, t)
    ensures SameCached(s.(expiry := WithExpiry(s.expiry, key, at)), t.(expiry := WithExpiry(t.expiry, key, at)))
  {
    hide Keys;
  }

  lemma NothingCached(hash: string)
    ensures forall h: string :: SameCached(Store(h, [], map[]), Store(h, [], map[]))
    ensures Unique<string>([])
  {
  }

  // ------------------------------------------------------------ Warming from the database

  // Keys of the user's newest rows, oldest first, put into an empty cache.
  function LoadStore(capacity: nat, hash: string, user: string, keys: seq<string>, rows: map<Place, Row>): Store
    requires forall i :: 0 <= i < |keys| ==> Place(user, keys[i]) in rows
  {
    if keys == [] then Store(hash, [], map[])
    else
      var k := keys[|keys| - 1];
      Warm(capacity, LoadStore(capacity, hash, user, keys[..|keys| - 1], rows), k, rows[Place(user, k)])
  }

  lemma {:induction false} LoadRight(capacity: nat, hash: string, user: string, keys: seq<string>, rows: map<Place, Row>)
    requires capacity >= 1 && forall i :: 0 <= i < |keys| ==> Place(user, keys[i]) in rows
    ensures StoreRight(LoadStore(capacity, hash, user, keys, rows), user, capacity, rows, rows, false)
    ensures LoadStore(capacity, hash, user, keys, rows).hash == hash
  {
    hide Warm, StoreRight;
    if keys == [] {
      EmptyRight(capacity, hash, user, rows);
    } else {
      var k := keys[|keys| - 1];
      var s := LoadStore(capacity, hash, user, keys[..|keys| - 1], rows);
      LoadRight(capacity, hash, user, keys[..|keys| - 1], rows);
      WarmRight(s, user, capacity, rows, rows, rows, false, k, rows[Place(user, k)]);
      WarmHash(capacity, s, k, rows[Place(user, k)]);
    }
  }

  // The rows a store is warmed with are all there, in the order they were listed, with
  // their expiries and nothing else, as long as they fit.
  lemma {:induction false} WarmedExactly(capacity: nat, hash: string, user: string, keys: seq<string>, rows: map<Place, Row>)
    requires |keys| <= capacity && forall i :: 0 <= i < |keys| ==> Place(user, keys[i]) in rows
    requires forall i, j :: 0 <= i < j < |keys| ==> keys[i] != keys[j]
    ensures var s := LoadStore(capacity, hash, user, keys, rows);
      && s.hash == hash && |s.cache| == |keys|
      && (forall i :: 0 <= i < |keys| ==> s.cache[i] == (keys[i], rows[Place(user, keys[i])].value))
      && (forall i :: 0 <= i < |keys| ==> ExpiryOf(s.expiry, keys[i]) == rows[Place(user, keys[i])].expireAt)
      && (forall k :: k in s.expiry ==> k in keys)
  {
    if keys != [] {
      var n := |keys| - 1;
      var t, k := keys[..n], keys[n];
      WarmedExactly(capacity, hash, user, t, rows);
      var s := LoadStore(capacity, hash, user, t, rows);
      hide LoadStore;
      forall i | 0 <= i < |s.cache|
        ensures s.cache[i].0 != k
      {
        assert t[i] == keys[i];
      }
      assert k !in Keys(s.cache);
      assert keys == t + [k];
    }
  }

  lemma EmptyRight(capacity: nat, hash: string, user: string, rows: map<Place, Row>)
    ensures StoreRight(Store(hash, [], map[]), user, capacity, rows, rows, false)
  {
  }

  // newest: which rows of a user, in which order, the database lists first.
  ghost predicate Newest(newest: map<string, seq<string>>, users: map<string, string>, rows: map<Place, Row>) {
    forall u :: u in users ==> u in newest && forall i :: 0 <= i < |newest[u]| ==> Place(u, newest[u][i]) in rows
  }

  function Reloaded(capacity: nat, users: map<string, string>, rows: map<Place, Row>, newest: map<string, seq<string>>): map<string, Store>
    requires Newest(newest, users, rows)
  {
    map u | u in users :: LoadStore(capacity, users[u], u, newest[u], rows)
  }

  // A machine warmed with whichever rows agrees with its database.
  lemma WarmedAgrees(capacity: nat, d: Data, newest: map<string, seq<string>>)
    requires capacity >= 1 && RowsRight(d) && Newest(newest, d.users, d.rows)
    ensures AtRest(Machine(true, capacity, Reloaded(capacity, d.users, d.rows, newest), d.users, d.rows), d)
  {
    hide StoreRight, LoadStore, RowsRight;
    forall u | u in d.users
      ensures StoreRight(LoadStore(capacity, d.users[u], u, newest[u], d.rows), u, capacity, d.rows, d.rows, false)
      ensures LoadStore(capacity, d.users[u], u, newest[u], d.rows).hash == d.users[u]
    {
      LoadRight(capacity, d.users[u], u, newest[u], d.rows);
    }
  }

  // A restart, also in the middle of a SWEEP, forgets the caches and nothing else:
  // whichever rows the new ones are warmed with, the machine agrees with the same plain
  // map as before.
  lemma ReloadAgrees(m: Machine, d: Data, before: Data, at: int, todo: set<string>, newest: map<string, seq<string>>)
    requires Agrees(m, d, before, at, todo) && Newest(newest, m.users, m.rows)
    ensures AtRest(m.(stores := Reloaded(m.capacity, m.users, m.rows, newest)), d)
  {
    AgreesFacts(m, d, before, at, todo);
    hide Agrees, AtRest, Reloaded, RowsRight, SameButExpired;
    WarmedAgrees(m.capacity, d, newest);
    assert m.(stores := Reloaded(m.capacity, m.users, m.rows, newest)) == Machine(true, m.capacity, Reloaded(m.capacity, d.users, d.rows, newest), d.users, d.rows);
  }

  // ------------------------------------------------------------ Dumping the database

  function TableUserLines(users: seq<string>, t: Tables): seq<Line>
    requires forall i :: 0 <= i < |users| ==> users[i] in t.users
  {
    seq(|users|, i requires 0 <= i < |users| => UserLine(users[i], t.users[users[i]]))
  }

  function TableEntryLines(places: seq<Place>, t: Tables): seq<Line>
    requires forall i :: 0 <= i < |places| ==> places[i] in t.rows
  {
    seq(|places|, i requires 0 <= i < |places| => EntryLine(places[i].user, places[i].key, t.rows[places[i]].value, t.rows[places[i]].expireAt))
  }

  function TableSessionLines(clients: seq<string>, t: Tables): seq<Line>
    requires forall i :: 0 <= i < |clients| ==> clients[i] in t.sessions
  {
    seq(|clients|, i requires 0 <= i < |clients| => SessionLine(clients[i], t.sessions[clients[i]]))
  }

  // dump_to: each table in the order of its ids or of its last changes.
  ghost predicate IsTableDump(lines: seq<Line>, t: Tables) {
    exists users, places, clients ::
      && Enumerates(users, t.users.Keys) && Enumerates(places, t.rows.Keys) && Enumerates(clients, t.sessions.Keys)
      && lines == TableUserLines(users, t) + TableEntryLines(places, t) + TableSessionLines(clients, t)
  }

  lemma LoadPush(lines: seq<Line>, x: Line)
    ensures Load(lines + [x]) == (var t := Load(lines); if t.None? then None else LoadLine(t.value, x))
  {
    assert (lines + [x])[..|lines|] == lines;
  }

  lemma {:induction false} UsersLoaded(users: seq<string>, t: Tables, n: nat)
    requires Enumerates(users, t.users.Keys) && n <= |users| && forall i :: 0 <= i < |users| ==> users[i] in t.users
    ensures Load(TableUserLines(users, t)[..n]) == Some(Tables(Part(t.users, users[..n]), map[], map[]))
    decreases n
  {
    hide Enumerates, Part;
    var l := TableUserLines(users, t);
    if n == 0 {
      PartNone(t.users);
    } else {
      UsersLoaded(users, t, n - 1);
      assert l[..n] == l[..n - 1] + [l[n - 1]];
      LoadPush(l[..n - 1], l[n - 1]);
      PartPush(t.users, users, n - 1);
      NotYet(users, t.users.Keys, n - 1);
    }
  }

  lemma {:induction false} EntriesLoaded(a: seq<Line>, places: seq<Place>, t: Tables, n: nat)
    requires Load(a) == Some(Tables(t.users, map[], map[])) && forall p :: p in t.rows ==> p.user in t.users
    requires Enumerates(places, t.rows.Keys) && n <= |places| && forall i :: 0 <= i < |places| ==> places[i] in t.rows
    ensures Load(a + TableEntryLines(places, t)[..n]) == Some(Tables(t.users, Part(t.rows, places[..n]), map[]))
    decreases n
  {
    hide Enumerates, Part, Load;
    var l := TableEntryLines(places, t);
    if n == 0 {
      PartNone(t.rows);
      assert a + l[..0] == a;
    } else {
      EntriesLoaded(a, places, t, n - 1);
      assert a + l[..n] == (a + l[..n - 1]) + [l[n - 1]];
      LoadPush(a + l[..n - 1], l[n - 1]);
      PartPush(t.rows, places, n - 1);
      NotYet(places, t.rows.Keys, n - 1);
      assert Place(places[n - 1].user, places[n - 1].key) == places[n - 1];
      assert Row(t.rows[places[n - 1]].value, t.rows[places[n - 1]].expireAt) == t.rows[places[n - 1]];
    }
  }

  lemma {:induction false} SessionsLoaded(a: seq<Line>, clients: seq<string>, t: Tables, n: nat)
    requires Load(a) == Some(Tables(t.users, t.rows, map[]))
    requires Enumerates(clients, t.sessions.Keys) && n <= |clients| && forall i :: 0 <= i < |clients| ==> clients[i] in t.sessions
    ensures Load(a + TableSessionLines(clients, t)[..n]) == Some(Tables(t.users, t.rows, Part(t.sessions, clients[..n])))
    decreases n
  {
    hide Enumerates, Part, Load;
    var l := TableSessionLines(clients, t);
    if n == 0 {
      PartNone(t.sessions);
      assert a + l[..0] == a;
    } else {
      SessionsLoaded(a, clients, t, n - 1);
      assert a + l[..n] == (a + l[..n - 1]) + [l[n - 1]];
      LoadPush(a + l[..n - 1], l[n - 1]);
      PartPush(t.sessions, clients, n - 1);
      NotYet(clients, t.sessions.Keys, n - 1);
    }
  }

  // Loading the dump of a database gives the same tables.
  lemma TableRoundTrip(lines: seq<Line>, t: Tables)
    requires IsTableDump(lines, t) && forall p :: p in t.rows ==> p.user in t.users
    ensures Load(lines) == Some(t)
  {
    var users, places, clients :|
      && Enumerates(users, t.users.Keys) && Enumerates(places, t.rows.Keys) && Enumerates(clients, t.sessions.Keys)
      && lines == TableUserLines(users, t) + TableEntryLines(places, t) + TableSessionLines(clients, t);
    hide Load, Enumerates, Part;
    var a, b, c := TableUserLines(users, t), TableEntryLines(places, t), TableSessionLines(clients, t);
    NotYetAll(users, t.users.Keys);
    NotYetAll(places, t.rows.Keys);
    NotYetAll(clients, t.sessions.Keys);
    UsersLoaded(users, t, |users|);
    PartAll(t.users, users);
    assert a[..|a|] == a && b[..|b|] == b && c[..|c|] == c;
    EntriesLoaded(a, places, t, |places|);
    PartAll(t.rows, places);
    SessionsLoaded(a + b, clients, t, |clients|);
    PartAll(t.sessions, clients);
  }
}
