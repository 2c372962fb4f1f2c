// The meaning of the replicated data: a plain map from user and key to value and expiry.
module PlainMaps {
  import opened Types

  datatype Place = Place(user: string, key: string)

  datatype Row = Row(value: string, expireAt: Option<int>)

  // What applying a command returns; Raised stands for an exception, after which the
  // applier tries the same entry again, for ever.
  datatype Answer = Truth(b: bool) | Count(n: nat) | Nothing | Raised

  datatype Data = Data(users: map<string, string>, rows: map<Place, Row>)

  predicate Expired(expireAt: Option<int>, at: int) {
    expireAt.Some? && expireAt.value <= at
  }

  // The row, unless it is missing or expired.
  function LiveRow(rows: map<Place, Row>, p: Place, at: int): Option<Row> {
    if p in rows && !Expired(rows[p].expireAt, at) then Some(rows[p]) else None
  }

  function ExpiredPlaces(rows: map<Place, Row>, at: int): set<Place> {
    set p | p in rows && Expired(rows[p].expireAt, at)
  }

  // Every command of the log, on plain maps.
  function Perform(d: Data, user: string, op: Operation): (Data, Answer) {
    match op
    case SignUp(hash) =>
      if user in d.users then (d, Truth(false)) else (d.(users := d.users[user := hash]), Truth(true))
    case Set(key, value) =>
      if user !in d.users then (d, Truth(false))
      else (d.(rows := d.rows[Place(user, key) := Row(value, None)]), Truth(true))
    case SetEx(key, expireAt, value) =>
      if user !in d.users then (d, Truth(false))
      else (d.(rows := d.rows[Place(user, key) := Row(value, Some(expireAt))]), Truth(true))
    case Delete(key, stamp) =>
      if user !in d.users then (d, Truth(false))
      else
        var p := Place(user, key);
        (d.(rows := d.rows - {p}),
         Truth(p in d.rows && !(stamp.Some? && Expired(d.rows[p].expireAt, stamp.value))))
    case ExpireAt(key, expireAt, now) =>
      var p := Place(user, key);
      if user !in d.users || LiveRow(d.rows, p, now).None? then (d, Truth(false))
      else (d.(rows := d.rows[p := d.rows[p].(expireAt := Some(expireAt))]), Truth(true))
    case Persist(key, now) =>
      var p := Place(user, key);
      if user !in d.users || LiveRow(d.rows, p, now).None? || d.rows[p].expireAt.None? then (d, Truth(false))
      else (d.(rows := d.rows[p := d.rows[p].(expireAt := None)]), Truth(true))
    case Sweep(now) =>
      (d.(rows := d.rows - ExpiredPlaces(d.rows, now)), Count(|ExpiredPlaces(d.rows, now)|))
    case Unknown => (d, Nothing)
  }

  // A read at a time.
  function Read(d: Data, user: string, key: string, at: int): Option<string> {
    if user !in d.users then None
    else
      match LiveRow(d.rows, Place(user, key), at)
      case Some(row) => Some(row.value)
      case None => None
  }

  // ------------------------------------------------------------ Sweeping preserves meaning

  // The two differ only by rows that had expired at time t.
  ghost predicate SameButExpired(d: Data, e: Data, t: int) {
    && d.users == e.users
    && (forall p :: p in e.rows ==> p in d.rows && d.rows[p] == e.rows[p])
    && (forall p :: p in d.rows && p !in e.rows ==> Expired(d.rows[p].expireAt, t))
  }

  // The command carries a time, and it is not before t.
  predicate StampedFrom(op: Operation, t: int) {
    match op
    case Delete(_, stamp) => stamp.Some? && stamp.value >= t
    case ExpireAt(_, _, now) => now >= t
    case Persist(_, now) => now >= t
    case Sweep(now) => now >= t
    case _ => true
  }

  lemma ReadSame(d: Data, e: Data, t: int, user: string, key: string, at: int)
    requires SameButExpired(d, e, t) && at >= t
    ensures Read(d, user, key, at) == Read(e, user, key, at)
  {
  }

  lemma PerformSame(d: Data, e: Data, t: int, user: string, op: Operation)
    requires SameButExpired(d, e, t) && StampedFrom(op, t)
    ensures SameButExpired(Perform(d, user, op).0, Perform(e, user, op).0, t)
    ensures !op.Sweep? ==> Perform(d, user, op).1 == Perform(e, user, op).1
  {
  }

  datatype Command = Command(user: string, op: Operation)

  function PerformAll(d: Data, log: seq<Command>): Data {
    if log == [] then d else Perform(PerformAll(d, log[..|log| - 1]), log[|log| - 1].user, log[|log| - 1].op).0
  }

  lemma {:induction false} SuffixSame(d: Data, e: Data, t: int, log: seq<Command>)
    requires SameButExpired(d, e, t)
    requires forall c :: c in log ==> StampedFrom(c.op, t)
    ensures SameButExpired(PerformAll(d, log), PerformAll(e, log), t)
  {
    hide SameButExpired, Perform;
    if log != [] {
      var c := log[|log| - 1];
      assert c in log;
      SuffixSame(d, e, t, log[..|log| - 1]);
      PerformSame(PerformAll(d, log[..|log| - 1]), PerformAll(e, log[..|log| - 1]), t, c.user, c.op);
    }
  }

  // Taking a SWEEP out of a log changes no later result but the counts of later sweeps,
  // and no later read, when all that follows is stamped at or after it.
  lemma SweepErased(d: Data, before: seq<Command>, t: int, after: seq<Command>, next: Command, at: int, key: string)
    requires forall c :: c in after ==> StampedFrom(c.op, t)
    requires StampedFrom(next.op, t) && at >= t
    ensures
      var d1 := PerformAll(Perform(PerformAll(d, before), "", Sweep(t)).0, after);
      var d2 := PerformAll(PerformAll(d, before), after);
      && (!next.op.Sweep? ==> Perform(d1, next.user, next.op).1 == Perform(d2, next.user, next.op).1)
      && Read(d1, next.user, key, at) == Read(d2, next.user, key, at)
  {
    var b := PerformAll(d, before);
    var s := Perform(b, "", Sweep(t)).0;
    assert SameButExpired(b, s, t);
    SuffixSame(b, s, t, after);
    PerformSame(PerformAll(b, after), PerformAll(s, after), t, next.user, next.op);
    ReadSame(PerformAll(b, after), PerformAll(s, after), t, next.user, key, at);
  }
}
