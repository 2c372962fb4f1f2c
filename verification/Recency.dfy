// Key/value pairs in order of last use, least recently used first: what the bounded
// cache holds, as a value. The client session table obeys the same rule.
module Recency {
  import opened Types

  type Items<V> = seq<(string, V)>

  function Keys<V>(s: Items<V>): set<string> {
    set i | 0 <= i < |s| :: s[i].0
  }

  ghost predicate Unique<V>(s: Items<V>) {
    forall i, j :: 0 <= i < j < |s| ==> s[i].0 != s[j].0
  }

  function Find<V>(s: Items<V>, k: string): (r: Option<V>)
    ensures r.Some? <==> k in Keys(s)
    ensures r.Some? ==> (k, r.value) in s
  {
    if s == [] then None
    else if s[|s| - 1].0 == k then Some(s[|s| - 1].1)
    else
      assert s == s[..|s| - 1] + [s[|s| - 1]];
      Find(s[..|s| - 1], k)
  }

  function Without<V>(s: Items<V>, k: string): Items<V> {
    if s == [] then []
    else
      var r := Without(s[..|s| - 1], k);
      if s[|s| - 1].0 == k then r else r + [s[|s| - 1]]
  }

  // A set() of the cache: an existing key moves to the end, a new one may evict the first.
  function Put<V>(cap: nat, s: Items<V>, k: string, v: V): Items<V> {
    if k in Keys(s) then Without(s, k) + [(k, v)]
    else if |s| >= cap && s != [] then s[1..] + [(k, v)]
    else s + [(k, v)]
  }

  // A get() of the cache: a hit moves to the end.
  function Touch<V>(s: Items<V>, k: string): Items<V> {
    match Find(s, k)
    case Some(v) => Without(s, k) + [(k, v)]
    case None => s
  }

  // ------------------------------------------------------------ Basic facts

  lemma KeysAppend<V>(s: Items<V>, t: Items<V>)
    ensures Keys(s + t) == Keys(s) + Keys(t)
  {
    forall k | k in Keys(s) + Keys(t)
      ensures k in Keys(s + t)
    {
      if k in Keys(s) {
        var i :| 0 <= i < |s| && s[i].0 == k;
        assert (s + t)[i].0 == k;
      } else {
        var i :| 0 <= i < |t| && t[i].0 == k;
        assert (s + t)[|s| + i].0 == k;
      }
    }
  }

  lemma KeysPush<V>(s: Items<V>, k: string, v: V)
    ensures Keys(s + [(k, v)]) == Keys(s) + {k}
  {
    KeysAppend(s, [(k, v)]);
    assert Keys([(k, v)]) == {k} by {
      assert [(k, v)][0].0 == k;
    }
  }

  lemma Split<V>(s: Items<V>)
    requires s != []
    ensures s == s[..|s| - 1] + [s[|s| - 1]]
    ensures Keys(s) == Keys(s[..|s| - 1]) + {s[|s| - 1].0}
  {
    var e := s[|s| - 1];
    assert s == s[..|s| - 1] + [e];
    KeysPush(s[..|s| - 1], e.0, e.1);
  }

  lemma {:induction false} WithoutKeys<V>(s: Items<V>, k: string)
    ensures Keys(Without(s, k)) == Keys(s) - {k}
    ensures k !in Keys(s) ==> Without(s, k) == s
  {
    if s != [] {
      var t, e := s[..|s| - 1], s[|s| - 1];
      Split(s);
      WithoutKeys(t, k);
      KeysPush(Without(t, k), e.0, e.1);
    }
  }

  lemma {:induction false} WithoutUnique<V>(s: Items<V>, k: string)
    requires Unique(s)
    ensures Unique(Without(s, k)) && |Without(s, k)| == |s| - (if k in Keys(s) then 1 else 0)
    ensures forall e :: e in Without(s, k) ==> e in s && e.0 != k
    ensures forall e :: e in s && e.0 != k ==> e in Without(s, k)
  {
    if s != [] {
      var t, e := s[..|s| - 1], s[|s| - 1];
      Split(s);
      assert e.0 !in Keys(t);
      WithoutUnique(t, k);
      WithoutKeys(t, k);
      PushUnique(Without(t, k), e.0, e.1);
    }
  }

  lemma PushUnique<V>(s: Items<V>, k: string, v: V)
    requires Unique(s) && k !in Keys(s)
    ensures Unique(s + [(k, v)])
  {
    assert forall i :: 0 <= i < |s| ==> s[i].0 in Keys(s);
  }

  lemma KeysOf<V>(s: Items<V>)
    ensures forall e :: e in s ==> e.0 in Keys(s)
  {
  }

  lemma TailKeys<V>(s: Items<V>)
    requires s != [] && Unique(s)
    ensures Unique(s[1..]) && Keys(s[1..]) == Keys(s) - {s[0].0}
  {
    assert forall i :: 0 <= i < |s| - 1 ==> s[1..][i] == s[i + 1];
    forall k | k in Keys(s) - {s[0].0}
      ensures k in Keys(s[1..])
    {
      var i :| 0 <= i < |s| && s[i].0 == k;
      assert s[1..][i - 1].0 == k;
    }
  }

  lemma FindUnique<V>(s: Items<V>, k: string, v: V)
    requires Unique(s) && (k, v) in s
    ensures Find(s, k) == Some(v)
  {
    var i :| 0 <= i < |s| && s[i] == (k, v);
  }

  // After a set the key is the newest, with its value; nothing else changed value.
  lemma PutFacts<V>(cap: nat, s: Items<V>, k: string, v: V)
    requires Unique(s) && cap >= 1 && |s| <= cap
    ensures var r := Put(cap, s, k, v);
      && Unique(r) && 1 <= |r| <= cap && r[|r| - 1] == (k, v) && (k, v) in r
      && k in Keys(r) && Keys(r) <= Keys(s) + {k}
      && (forall e :: e in r ==> e == (k, v) || (e in s && e.0 != k))
      && (k in Keys(s) || |s| < cap ==> Keys(r) == Keys(s) + {k})
  {
    hide Keys, Without, Unique;
    var t := Room(cap, s, k);
    PutIsRoomPlus(cap, s, k, v);
    RoomFacts(cap, s, k);
    KeysPush(t, k, v);
    PushUnique(t, k, v);
  }

  // What remains of a cache before the new pair is appended.
  function Room<V>(cap: nat, s: Items<V>, k: string): Items<V> {
    if k in Keys(s) then Without(s, k) else if |s| >= cap && s != [] then s[1..] else s
  }

  lemma PutIsRoomPlus<V>(cap: nat, s: Items<V>, k: string, v: V)
    ensures Put(cap, s, k, v) == Room(cap, s, k) + [(k, v)]
  {
  }

  lemma RoomFacts<V>(cap: nat, s: Items<V>, k: string)
    requires Unique(s) && cap >= 1 && |s| <= cap
    ensures var r := Room(cap, s, k);
      && Unique(r) && |r| < cap && k !in Keys(r) && Keys(r) <= Keys(s)
      && (forall e :: e in r ==> e in s && e.0 != k)
      && (k in Keys(s) || |s| < cap ==> Keys(r) == Keys(s) - {k})
  {
    hide Keys, Without, Unique;
    WithoutKeys(s, k);
    WithoutUnique(s, k);
    KeysOf(s);
    assert k !in Keys(s) ==> Keys(s) - {k} == Keys(s);
    if s != [] {
      TailKeys(s);
      assert forall e :: e in s[1..] ==> e in s;
    }
  }

  lemma TouchFacts<V>(s: Items<V>, k: string)
    requires Unique(s)
    ensures Unique(Touch(s, k)) && Keys(Touch(s, k)) == Keys(s) && |Touch(s, k)| == |s|
    ensures forall e :: e in Touch(s, k) <==> e in s
  {
    if k in Keys(s) {
      var v := Find(s, k).value;
      var t := Without(s, k);
      WithoutKeys(s, k);
      WithoutUnique(s, k);
      KeysPush(t, k, v);
      PushUnique(t, k, v);
      forall e | e in s && e.0 == k
        ensures e == (k, v)
      {
        FindUnique(s, k, e.1);
      }
    }
  }

  lemma {:induction false} UniqueCount<V>(s: Items<V>)
    requires Unique(s)
    ensures |Keys(s)| == |s|
  {
    if s != [] {
      Split(s);
      assert s[|s| - 1].0 !in Keys(s[..|s| - 1]);
      UniqueCount(s[..|s| - 1]);
    }
  }

  lemma NoKeys<V>()
    ensures Keys<V>([]) == {}
  {
  }

  // ------------------------------------------------------------ Order of use

  datatype Use = SetKey(key: string, value: string) | GetKey(key: string) | DeleteKey(key: string) | ClearAll

  function Next(cap: nat, s: Items<string>, u: Use): Items<string> {
    match u
    case SetKey(k, v) => Put(cap, s, k, v)
    case GetKey(k) => Touch(s, k)
    case DeleteKey(k) => Without(s, k)
    case ClearAll => []
  }

  // The contents after a trace that starts empty.
  function After(cap: nat, trace: seq<Use>): Items<string> {
    if trace == [] then [] else Next(cap, After(cap, trace[..|trace| - 1]), trace[|trace| - 1])
  }

  // The moment, counted from 1, of the last set or successful get of a key; 0 if never.
  function LastUse(cap: nat, trace: seq<Use>, k: string): (t: nat)
    ensures t <= |trace|
  {
    if trace == [] then 0
    else
      var before, u := trace[..|trace| - 1], trace[|trace| - 1];
      if u.SetKey? && u.key == k then |trace|
      else if u.GetKey? && u.key == k && k in Keys(After(cap, before)) then |trace|
      else LastUse(cap, before, k)
  }

  // The value of the last set of a key.
  function LastValue(trace: seq<Use>, k: string): Option<string> {
    if trace == [] then None
    else
      var u := trace[|trace| - 1];
      if u.SetKey? && u.key == k then Some(u.value) else LastValue(trace[..|trace| - 1], k)
  }

  ghost predicate InOrderOfUse(cap: nat, trace: seq<Use>, s: Items<string>) {
    && (forall i, j :: 0 <= i < j < |s| ==> LastUse(cap, trace, s[i].0) < LastUse(cap, trace, s[j].0))
    && (forall i :: 0 <= i < |s| ==> LastUse(cap, trace, s[i].0) >= 1)
  }

  lemma {:induction false} AfterUnique(cap: nat, trace: seq<Use>)
    requires cap >= 1
    ensures Unique(After(cap, trace)) && |After(cap, trace)| <= cap
  {
    hide Put, Touch, Without;
    if trace != [] {
      var s, u := After(cap, trace[..|trace| - 1]), trace[|trace| - 1];
      AfterUnique(cap, trace[..|trace| - 1]);
      match u
      case SetKey(k, v) => PutFacts(cap, s, k, v);
      case GetKey(k) => TouchFacts(s, k);
      case DeleteKey(k) => WithoutUnique(s, k);
      case ClearAll =>
    }
  }

  // Removing keys keeps any order the rest was in.
  lemma {:induction false} WithoutOrder(s: Items<string>, k: string, f: string -> int)
    requires Unique(s) && forall i, j :: 0 <= i < j < |s| ==> f(s[i].0) < f(s[j].0)
    ensures var r := Without(s, k); forall i, j :: 0 <= i < j < |r| ==> f(r[i].0) < f(r[j].0)
  {
    if s != [] {
      var t, e := s[..|s| - 1], s[|s| - 1];
      WithoutOrder(t, k, f);
      WithoutUnique(t, k);
      var r := Without(t, k);
      forall i | 0 <= i < |r|
        ensures f(r[i].0) < f(e.0)
      {
        assert r[i] in r;
        assert r[i] in t;
      }
    }
  }

  // What is left of the order when the last step of the trace used another key k.
  lemma UsedLast(cap: nat, trace: seq<Use>, t: Items<string>, k: string, v: string)
    requires trace != []
    requires InOrderOfUse(cap, trace[..|trace| - 1], t)
    requires forall i :: 0 <= i < |t| ==> t[i].0 != k
    requires var u := trace[|trace| - 1]; !u.ClearAll? && u.key == k
    requires LastUse(cap, trace, k) == |trace|
    ensures InOrderOfUse(cap, trace, t + [(k, v)])
  {
    forall i | 0 <= i < |t|
      ensures LastUse(cap, trace, t[i].0) == LastUse(cap, trace[..|trace| - 1], t[i].0)
    {
      OtherKey(cap, trace, t[i].0);
    }
  }

  lemma OtherKey(cap: nat, trace: seq<Use>, x: string)
    requires trace != [] && (var u := trace[|trace| - 1]; !u.ClearAll? ==> u.key != x)
    ensures LastUse(cap, trace, x) == LastUse(cap, trace[..|trace| - 1], x)
  {
  }

  lemma UnusedKept(cap: nat, trace: seq<Use>, t: Items<string>)
    requires trace != []
    requires InOrderOfUse(cap, trace[..|trace| - 1], t)
    requires forall i :: 0 <= i < |t| ==> LastUse(cap, trace, t[i].0) == LastUse(cap, trace[..|trace| - 1], t[i].0)
    ensures InOrderOfUse(cap, trace, t)
  {
  }

  lemma WithoutInOrder(cap: nat, trace: seq<Use>, s: Items<string>, k: string)
    requires Unique(s) && InOrderOfUse(cap, trace, s)
    ensures InOrderOfUse(cap, trace, Without(s, k))
    ensures forall i :: 0 <= i < |Without(s, k)| ==> Without(s, k)[i].0 != k
  {
    hide Without, LastUse;
    WithoutOrder(s, k, x => LastUse(cap, trace, x));
    WithoutUnique(s, k);
    var r := Without(s, k);
    forall i | 0 <= i < |r|
      ensures r[i] in s && r[i].0 != k && LastUse(cap, trace, r[i].0) >= 1
    {
      assert r[i] in r;
      var j :| 0 <= j < |s| && s[j] == r[i];
    }
  }

  lemma RoomInOrder(cap: nat, trace: seq<Use>, s: Items<string>, k: string)
    requires Unique(s) && InOrderOfUse(cap, trace, s)
    ensures InOrderOfUse(cap, trace, Room(cap, s, k))
    ensures forall i :: 0 <= i < |Room(cap, s, k)| ==> Room(cap, s, k)[i].0 != k
  {
    hide LastUse, Without;
    WithoutInOrder(cap, trace, s, k);
  }

  // The contents are always in order of last successful get or set.
  lemma {:induction false} OrderIsOrderOfUse(cap: nat, trace: seq<Use>)
    requires cap >= 1
    ensures InOrderOfUse(cap, trace, After(cap, trace))
  {
    if trace != [] {
      var before, u := trace[..|trace| - 1], trace[|trace| - 1];
      var s := After(cap, before);
      OrderIsOrderOfUse(cap, before);
      AfterUnique(cap, before);
      hide Keys, InOrderOfUse, Without, Put, Room;
      match u
      case SetKey(k, v) =>
        RoomInOrder(cap, before, s, k);
        PutIsRoomPlus(cap, s, k, v);
        UsedLast(cap, trace, Room(cap, s, k), k, v);
      case GetKey(k) =>
        if k in Keys(s) {
          WithoutInOrder(cap, before, s, k);
          UsedLast(cap, trace, Without(s, k), k, Find(s, k).value);
        } else {
          UnusedKept(cap, trace, s);
        }
      case DeleteKey(k) =>
        WithoutInOrder(cap, before, s, k);
        UnusedKept(cap, trace, Without(s, k));
      case ClearAll =>
        NothingInOrder(cap, trace);
    }
    else {
      NothingInOrder(cap, trace);
    }
  }

  lemma NothingInOrder(cap: nat, trace: seq<Use>)
    ensures InOrderOfUse(cap, trace, [])
  {
  }

  // Every cached value is the last one set.
  lemma {:induction false} ValuesAreLastSet(cap: nat, trace: seq<Use>)
    requires cap >= 1
    ensures forall e :: e in After(cap, trace) ==> LastValue(trace, e.0) == Some(e.1)
  {
    hide Put, Touch, Without;
    if trace != [] {
      var s, u := After(cap, trace[..|trace| - 1]), trace[|trace| - 1];
      ValuesAreLastSet(cap, trace[..|trace| - 1]);
      AfterUnique(cap, trace[..|trace| - 1]);
      match u
      case SetKey(k, v) => PutFacts(cap, s, k, v);
      case GetKey(k) => TouchFacts(s, k);
      case DeleteKey(k) => WithoutUnique(s, k);
      case ClearAll =>
    }
  }

  // A set of a new key on a full cache drops exactly the key whose last use is oldest.
  lemma EvictsOldest(cap: nat, trace: seq<Use>, k: string, v: string)
    requires cap >= 1 && |After(cap, trace)| == cap && k !in Keys(After(cap, trace))
    ensures var s := After(cap, trace);
      && Keys(After(cap, trace + [SetKey(k, v)])) == Keys(s) - {s[0].0} + {k}
      && forall x :: x in Keys(s) ==> LastUse(cap, trace, s[0].0) <= LastUse(cap, trace, x)
  {
    var s := After(cap, trace);
    OrderIsOrderOfUse(cap, trace);
    AfterUnique(cap, trace);
    assert (trace + [SetKey(k, v)])[..|trace|] == trace;
    TailKeys(s);
    KeysPush(s[1..], k, v);
  }

  // ------------------------------------------------------------ Inclusion

  // The pairs whose key is wanted, in the same order.
  function Keep<V>(s: Items<V>, wanted: set<string>): Items<V> {
    if s == [] then []
    else
      var r := Keep(s[..|s| - 1], wanted);
      if s[|s| - 1].0 in wanted then r + [s[|s| - 1]] else r
  }

  // a is what b holds for the keys of a, in b's order.
  ghost predicate Included<V>(a: Items<V>, b: Items<V>) {
    Keys(a) <= Keys(b) && a == Keep(b, Keys(a))
  }

  lemma KeepPush<V>(s: Items<V>, e: (string, V), wanted: set<string>)
    ensures Keep(s + [e], wanted) == if e.0 in wanted then Keep(s, wanted) + [e] else Keep(s, wanted)
  {
    assert (s + [e])[..|s|] == s;
  }

  lemma {:induction false} KeepWithout<V>(s: Items<V>, k: string, wanted: set<string>)
    ensures Keep(Without(s, k), wanted) == Without(Keep(s, wanted), k)
    ensures Keep(Without(s, k), wanted) == Keep(s, wanted - {k})
  {
    if s != [] {
      var t, e := s[..|s| - 1], s[|s| - 1];
      KeepWithout(t, k, wanted);
      KeepPush(Without(t, k), e, wanted);
      WithoutPush(Keep(t, wanted), e, k);
    }
  }

  lemma WithoutPush<V>(s: Items<V>, e: (string, V), k: string)
    ensures Without(s + [e], k) == if e.0 == k then Without(s, k) else Without(s, k) + [e]
  {
    assert (s + [e])[..|s|] == s;
  }

  lemma {:induction false} KeepTail<V>(s: Items<V>, wanted: set<string>)
    requires s != []
    ensures Keep(s, wanted) == (if s[0].0 in wanted then [s[0]] else []) + Keep(s[1..], wanted)
  {
    if |s| > 1 {
      KeepTail(s[..|s| - 1], wanted);
      assert s[..|s| - 1][1..] == s[1..][..|s| - 2];
    } else {
      assert s[1..] == [];
      assert s[..0] == [];
    }
  }

  lemma {:induction false} KeepSame<V>(s: Items<V>, a: set<string>, b: set<string>)
    requires forall k :: k in Keys(s) ==> (k in a <==> k in b)
    ensures Keep(s, a) == Keep(s, b)
  {
    if s != [] {
      Split(s);
      KeepSame(s[..|s| - 1], a, b);
    }
  }

  lemma {:induction false} IncludedMembers<V>(s: Items<V>, wanted: set<string>)
    ensures forall e :: e in Keep(s, wanted) ==> e in s
  {
    if s != [] {
      IncludedMembers(s[..|s| - 1], wanted);
    }
  }

  // An included pair of caches; the smaller never has more room than the larger.
  ghost predicate Nested(c: nat, a: Items<string>, d: nat, b: Items<string>) {
    && Unique(a) && Unique(b) && |a| <= c && |b| <= d
    && c - |a| <= d - |b|
    && Included(a, b)
  }

  lemma NestedTouch(c: nat, a: Items<string>, d: nat, b: Items<string>, k: string)
    requires Nested(c, a, d, b)
    ensures Nested(c, Touch(a, k), d, Touch(b, k))
  {
    hide Keys;
    TouchFacts(a, k);
    TouchFacts(b, k);
    WithoutKeys(a, k);
    WithoutKeys(b, k);
    IncludedMembers(b, Keys(a));
    if k in Keys(a) {
      var v := Find(a, k).value;
      FindUnique(b, k, v);
      KeepPush(Without(b, k), (k, v), Keys(a));
      KeepWithout(b, k, Keys(a));
    } else if k in Keys(b) {
      KeepPush(Without(b, k), (k, Find(b, k).value), Keys(a));
      KeepWithout(b, k, Keys(a));
    }
  }

  lemma NestedWithout(c: nat, a: Items<string>, d: nat, b: Items<string>, k: string)
    requires Nested(c, a, d, b)
    ensures Nested(c, Without(a, k), d, Without(b, k))
  {
    hide Keys;
    WithoutUnique(a, k);
    WithoutUnique(b, k);
    WithoutKeys(a, k);
    WithoutKeys(b, k);
    KeepWithout(b, k, Keys(a));
    KeepWithout(b, k, Keys(a) - {k});
    assert Keys(a) - {k} - {k} == Keys(a) - {k};
  }

  lemma NestedRoom(c: nat, a: Items<string>, d: nat, b: Items<string>, k: string)
    requires Nested(c, a, d, b) && 1 <= c <= d
    ensures Included(Room(c, a, k), Room(d, b, k))
    ensures k !in Keys(Room(c, a, k)) && k !in Keys(Room(d, b, k))
  {
    hide Keys, Keep, Without;
    RoomFacts(c, a, k);
    RoomFacts(d, b, k);
    WithoutKeys(a, k);
    WithoutKeys(b, k);
    if k in Keys(b) {
      KeepWithout(b, k, Keys(a));
      if k in Keys(a) {
        KeepWithout(b, k, Keys(a) - {k});
        assert Keys(a) - {k} - {k} == Keys(a) - {k};
      } else if |a| >= c {
        DropFirst(a, Without(b, k));
      }
    } else if |b| >= d {
      DropBoth(a, b);
    } else if |a| >= c {
      DropFirst(a, b);
    }
  }

  // Dropping the first of the smaller keeps the inclusion.
  lemma DropFirst(a: Items<string>, b: Items<string>)
    requires Included(a, b) && a != [] && Unique(a)
    ensures Included(a[1..], b)
  {
    hide Keys;
    var k := a[0].0;
    TailKeys(a);
    FirstOut(a);
    KeepWithout(b, k, Keys(a));
  }

  lemma {:induction false} FirstOut<V>(a: Items<V>)
    requires a != [] && Unique(a)
    ensures Without(a, a[0].0) == a[1..]
  {
    if |a| > 1 {
      FirstOut(a[..|a| - 1]);
      assert a[1..] == a[..|a| - 1][1..] + [a[|a| - 1]];
    } else {
      assert a[..0] == [];
    }
  }

  // Both are full: the larger drops its first, which is the first of the smaller or not in it.
  lemma DropBoth(a: Items<string>, b: Items<string>)
    requires Included(a, b) && Unique(a) && Unique(b) && a != [] && b != []
    ensures Included(a[1..], b[1..])
  {
    hide Keys;
    var k := b[0].0;
    TailKeys(a);
    TailKeys(b);
    KeepTail(b, Keys(a));
    DropFirst(a, b);
    KeepTail(b, Keys(a[1..]));
  }

  lemma NestedPut(c: nat, a: Items<string>, d: nat, b: Items<string>, k: string, v: string)
    requires Nested(c, a, d, b) && 1 <= c <= d
    ensures Nested(c, Put(c, a, k, v), d, Put(d, b, k, v))
  {
    hide Keys, Put, Room;
    PutFacts(c, a, k, v);
    PutFacts(d, b, k, v);
    PutIsRoomPlus(c, a, k, v);
    PutIsRoomPlus(d, b, k, v);
    NestedRoom(c, a, d, b, k);
    var x, y := Room(c, a, k), Room(d, b, k);
    KeysPush(x, k, v);
    KeysPush(y, k, v);
    KeepPush(y, (k, v), Keys(x) + {k});
    KeepSame(y, Keys(x), Keys(x) + {k});
    RoomSizes(c, a, d, b, k);
  }

  lemma RoomSizes(c: nat, a: Items<string>, d: nat, b: Items<string>, k: string)
    requires Nested(c, a, d, b) && 1 <= c <= d
    ensures c - |Room(c, a, k)| <= d - |Room(d, b, k)|
  {
    hide Keys;
    WithoutUnique(a, k);
    WithoutUnique(b, k);
  }

  // On one trace, what a smaller cache holds is what a larger one holds for the same
  // keys, in the same order, although each evicts and hits on its own.
  lemma {:induction false} Inclusion(c: nat, d: nat, trace: seq<Use>)
    requires 1 <= c <= d
    ensures Nested(c, After(c, trace), d, After(d, trace))
  {
    hide Put, Touch, Without;
    if trace == [] {
      assert Keys(After(c, trace)) == {};
    } else {
      var before, u := trace[..|trace| - 1], trace[|trace| - 1];
      var a, b := After(c, before), After(d, before);
      Inclusion(c, d, before);
      match u
      case SetKey(k, v) => NestedPut(c, a, d, b, k, v);
      case GetKey(k) => NestedTouch(c, a, d, b, k);
      case DeleteKey(k) => NestedWithout(c, a, d, b, k);
      case ClearAll => assert Keys<string>([]) == {};
    }
  }
}
