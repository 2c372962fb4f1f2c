// The replicated state machine as a value: a bounded cache and an expiry table per
// user in RAM, rows in the database, and every operation as a function on both.
module Machines {
  import opened Types
  import opened Recency
  import opened PlainMaps

  // One user in RAM. Expiries live beside the cache and may outlast an evicted key.
  datatype Store = Store(hash: string, cache: Items<string>, expiry: map<string, int>)

  // useDb false: RAM is the only copy and the rows stay empty.
  datatype Machine = Machine(useDb: bool, capacity: nat, stores: map<string, Store>, users: map<string, string>, rows: map<Place, Row>)

  function ExpiryOf(expiry: map<string, int>, key: string): Option<int> {
    if key in expiry then Some(expiry[key]) else None
  }

  function WithExpiry(expiry: map<string, int>, key: string, at: Option<int>): map<string, int> {
    match at
    case None => expiry - {key}
    case Some(t) => expiry[key := t]
  }

  // set() of the cache, and the expiry beside it.
  function Warm(capacity: nat, s: Store, key: string, row: Row): Store {
    s.(cache := Put(capacity, s.cache, key, row.value), expiry := WithExpiry(s.expiry, key, row.expireAt))
  }

  // From RAM, or from the database on a miss, warming RAM. Both change the cache.
  function Lookup(m: Machine, user: string, key: string): (Machine, Option<Row>)
    requires user in m.stores
  {
    var s := m.stores[user];
    match Find(s.cache, key)
    case Some(v) =>
      (m.(stores := m.stores[user := s.(cache := Touch(s.cache, key))]), Some(Row(v, ExpiryOf(s.expiry, key))))
    case None =>
      if !m.useDb || Place(user, key) !in m.rows then (m, None)
      else
        var row := m.rows[Place(user, key)];
        (m.(stores := m.stores[user := Warm(m.capacity, s, key, row)]), Some(row))
  }

  function Get(m: Machine, user: string, key: string, at: int): (Machine, Option<string>) {
    if user !in m.stores then (m, None)
    else
      var (n, item) := Lookup(m, user, key);
      if item.None? || Expired(item.value.expireAt, at) then (n, None) else (n, Some(item.value.value))
  }

  // ------------------------------------------------------------ Commands

  function ApplySignUp(m: Machine, user: string, hash: string): (Machine, Answer) {
    if user in m.stores then (m, Truth(false))
    else
      (m.(stores := m.stores[user := Store(hash, [], map[])], users := if m.useDb then m.users[user := hash] else m.users),
       Truth(true))
  }

  function SaveRow(m: Machine, user: string, key: string, row: Row): map<Place, Row> {
    if m.useDb && user in m.users then m.rows[Place(user, key) := row] else m.rows
  }

  // The database first; the cache refuses an empty key only afterwards.
  function ApplySet(m: Machine, user: string, key: string, row: Row): (Machine, Answer) {
    if user !in m.stores then (m, Truth(false))
    else
      var n := m.(rows := SaveRow(m, user, key, row));
      if key == "" then (n, Raised)
      else (n.(stores := n.stores[user := Warm(m.capacity, n.stores[user], key, row)]), Truth(true))
  }

  function Forget(s: Store, key: string): Store {
    s.(cache := Without(s.cache, key), expiry := s.expiry - {key})
  }

  function ApplyDelete(m: Machine, user: string, key: string, stamp: Option<int>): (Machine, Answer) {
    if user !in m.stores then (m, Truth(false))
    else
      var (n, item) := Lookup(m, user, key);
      var existed := item.Some? && !(stamp.Some? && Expired(item.value.expireAt, stamp.value));
      (n.(rows := if n.useDb then n.rows - {Place(user, key)} else n.rows, stores := n.stores[user := Forget(n.stores[user], key)]),
       Truth(existed))
  }

  function SetRowExpiry(m: Machine, user: string, key: string, at: Option<int>): map<Place, Row> {
    var p := Place(user, key);
    if m.useDb && p in m.rows then m.rows[p := m.rows[p].(expireAt := at)] else m.rows
  }

  function ApplyExpiry(m: Machine, user: string, key: string, expireAt: Option<int>, now: int): (Machine, Answer) {
    if user !in m.stores then (m, Truth(false))
    else
      var (n, item) := Lookup(m, user, key);
      if item.None? || Expired(item.value.expireAt, now) then (n, Truth(false))
      else if expireAt.None? && item.value.expireAt.None? then (n, Truth(false))
      else
        var s := n.stores[user];
        (n.(rows := SetRowExpiry(n, user, key, expireAt), stores := n.stores[user := s.(expiry := WithExpiry(s.expiry, key, expireAt))]),
         Truth(true))
  }

  // ------------------------------------------------------------ Sweep, in two halves

  function ExpiredKeys(s: Store, at: int): set<string> {
    set k | k in s.expiry && s.expiry[k] <= at
  }

  // The database half.
  function SweepRows(m: Machine, at: int): (Machine, nat) {
    if m.useDb then (m.(rows := m.rows - ExpiredPlaces(m.rows, at)), |ExpiredPlaces(m.rows, at)|) else (m, 0)
  }

  function SweptStore(s: Store, at: int): Store {
    s.(cache := Keep(s.cache, Keys(s.cache) - ExpiredKeys(s, at)), expiry := s.expiry - ExpiredKeys(s, at))
  }

  // The RAM half, one user at a time under the user's lock.
  function SweepStore(m: Machine, user: string, at: int): (Machine, nat)
    requires user in m.stores
  {
    var s := m.stores[user];
    (m.(stores := m.stores[user := SweptStore(s, at)]),
     if m.useDb then 0 else |ExpiredKeys(s, at) * Keys(s.cache)|)
  }

  // What the RAM half removes over all users.
  function SweptPlaces(m: Machine, at: int): set<Place> {
    set u, k | u in m.stores && k in m.stores[u].expiry && k in ExpiredKeys(m.stores[u], at) && k in Keys(m.stores[u].cache) :: Place(u, k)
  }

  function ApplySweep(m: Machine, at: int): (Machine, Answer) {
    var (n, removed) := SweepRows(m, at);
    (n.(stores := map u | u in n.stores :: SweptStore(n.stores[u], at)),
     Count(removed + if m.useDb then 0 else |SweptPlaces(n, at)|))
  }

  function Apply(m: Machine, user: string, op: Operation): (Machine, Answer) {
    match op
    case SignUp(hash) => ApplySignUp(m, user, hash)
    case Set(key, value) => ApplySet(m, user, key, Row(value, None))
    case SetEx(key, expireAt, value) => ApplySet(m, user, key, Row(value, Some(expireAt)))
    case Delete(key, stamp) => ApplyDelete(m, user, key, stamp)
    case ExpireAt(key, expireAt, now) => ApplyExpiry(m, user, key, Some(expireAt), now)
    case Persist(key, now) => ApplyExpiry(m, user, key, None, now)
    case Sweep(now) => ApplySweep(m, now)
    case Unknown => (m, Nothing)
  }
}
