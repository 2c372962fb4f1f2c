// What a user may rely on: every command of the plain map said in terms of the reads that
// follow it and of the reads before it.
module PlainLaws {
  import opened Types
  import opened PlainMaps

  // At any time the key reads as v until, exclusively, it expires.
  ghost predicate ReadsUntil(d: Data, user: string, key: string, v: string, expireAt: Option<int>) {
    forall at :: Read(d, user, key, at) == if expireAt.None? || at < expireAt.value then Some(v) else None
  }

  ghost predicate ReadsNothing(d: Data, user: string, key: string) {
    forall at :: Read(d, user, key, at) == None
  }

  // All other keys and users read as before.
  ghost predicate OthersSame(d: Data, e: Data, user: string, key: string) {
    forall u, k, at :: (u, k) != (user, key) ==> Read(e, u, k, at) == Read(d, u, k, at)
  }

  lemma SetReads(d: Data, user: string, key: string, v: string, t: int)
    requires user in d.users
    ensures var (e, a) := Perform(d, user, Set(key, v));
      a == Truth(true) && e.users == d.users && ReadsUntil(e, user, key, v, None) && OthersSame(d, e, user, key)
    ensures var (e, a) := Perform(d, user, SetEx(key, t, v));
      a == Truth(true) && e.users == d.users && ReadsUntil(e, user, key, v, Some(t)) && OthersSame(d, e, user, key)
  {
  }

  // DELETE: the key reads as nothing from then on, at any time; the answer is whether it
  // could be read at the stamp, or, without a stamp, at some time.
  lemma DeleteReads(d: Data, user: string, key: string, stamp: Option<int>)
    requires user in d.users
    ensures var (e, a) := Perform(d, user, Delete(key, stamp));
      && e.users == d.users && ReadsNothing(e, user, key) && OthersSame(d, e, user, key)
      && (stamp.Some? ==> a == Truth(Read(d, user, key, stamp.value).Some?))
      && (stamp.None? ==> (a == Truth(true) <==> exists at :: Read(d, user, key, at).Some?))
      && a.Truth?
  {
    var p := Place(user, key);
    if p in d.rows {
      var at := if d.rows[p].expireAt.Some? then d.rows[p].expireAt.value - 1 else 0;
      assert Read(d, user, key, at).Some?;
    }
  }

  // EXPIREAT: a key that can be read now keeps its value until the new time; any other is
  // left alone.
  lemma ExpireReads(d: Data, user: string, key: string, t: int, now: int)
    requires user in d.users
    ensures var (e, a) := Perform(d, user, ExpireAt(key, t, now));
      && a == Truth(Read(d, user, key, now).Some?) && e.users == d.users && OthersSame(d, e, user, key)
      && (Read(d, user, key, now).Some? ==> ReadsUntil(e, user, key, Read(d, user, key, now).value, Some(t)))
      && (Read(d, user, key, now).None? ==> e == d)
  {
  }

  // PERSIST: a key that can be read now, and not for ever, is kept for ever; any other is
  // left alone.
  lemma PersistReads(d: Data, user: string, key: string, now: int)
    requires user in d.users
    ensures var (e, a) := Perform(d, user, Persist(key, now));
      && e.users == d.users && OthersSame(d, e, user, key) && a.Truth?
      && (a.b <==> Read(d, user, key, now).Some? && exists at :: at > now && Read(d, user, key, at).None?)
      && (a.b ==> ReadsUntil(e, user, key, Read(d, user, key, now).value, None))
      && (!a.b ==> e == d)
  {
    var p := Place(user, key);
    if p in d.rows && d.rows[p].expireAt.Some? && d.rows[p].expireAt.value > now {
      assert Read(d, user, key, d.rows[p].expireAt.value).None?;
    }
  }

  // SIGNUP: the first one makes the user, without keys, unless rows were there before;
  // a second one changes nothing. Nothing any other user reads changes.
  lemma SignUpOnce(d: Data, user: string, hash: string)
    ensures var (e, a) := Perform(d, user, SignUp(hash));
      && a == Truth(user !in d.users) && user in e.users
      && (user in d.users ==> e == d)
      && (user !in d.users ==> e.users[user] == hash && e.users.Keys == d.users.Keys + {user} && e.rows == d.rows)
      && (forall u :: u in d.users ==> u in e.users && e.users[u] == d.users[u])
  {
  }

  lemma SweptRows(d: Data, user: string, t: int)
    ensures var (e, a) := Perform(d, user, Sweep(t));
      && e.users == d.users && e.rows.Keys <= d.rows.Keys && a == Count(|d.rows.Keys - e.rows.Keys|)
      && forall p :: p in d.rows ==> if Expired(d.rows[p].expireAt, t) then p !in e.rows else p in e.rows && e.rows[p] == d.rows[p]
  {
    assert d.rows.Keys - Perform(d, user, Sweep(t)).0.rows.Keys == ExpiredPlaces(d.rows, t);
  }

  lemma SweptKey(d: Data, user: string, t: int, u: string, k: string, at: int)
    ensures var e := Perform(d, user, Sweep(t)).0;
      && (at >= t || Read(d, u, k, t).Some? ==> Read(e, u, k, at) == Read(d, u, k, at))
      && (Read(d, u, k, t).None? ==> Read(e, u, k, at) == None)
  {
    hide Perform;
    SweptRows(d, user, t);
  }

  // SWEEP: what is read at its time or later stays; what can be read at its time stays at
  // any time; what cannot is gone at any time. The answer is how many keys went.
  lemma SweepReads(d: Data, user: string, t: int)
    ensures var (e, a) := Perform(d, user, Sweep(t));
      && e.users == d.users && e.rows.Keys <= d.rows.Keys && a == Count(|d.rows.Keys - e.rows.Keys|)
      && (forall u, k, at :: at >= t || Read(d, u, k, t).Some? ==> Read(e, u, k, at) == Read(d, u, k, at))
      && (forall u, k, at :: Read(d, u, k, t).None? ==> Read(e, u, k, at) == None)
  {
    hide Perform, Read;
    SweptRows(d, user, t);
    forall u, k, at
      ensures var e := Perform(d, user, Sweep(t)).0;
        && (at >= t || Read(d, u, k, t).Some? ==> Read(e, u, k, at) == Read(d, u, k, at))
        && (Read(d, u, k, t).None? ==> Read(e, u, k, at) == None)
    {
      SweptKey(d, user, t, u, k, at);
    }
  }

  // A user that does not exist can do nothing but sign up; an unknown command nothing.
  lemma StrangersDoNothing(d: Data, user: string, op: Operation)
    requires op.Unknown? || (user !in d.users && !op.SignUp? && !op.Sweep?)
    ensures Perform(d, user, op) == (d, if op.Unknown? then Nothing else Truth(false))
    ensures user !in d.users ==> forall key :: ReadsNothing(d, user, key)
  {
  }
}
