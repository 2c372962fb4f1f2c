// The bounded cache: an ordered dictionary, here its key order and its hash table,
// changed in place.
module LruCaches {
  import opened Types
  import opened Recency

  ghost predicate Consistent(order: seq<string>, data: map<string, string>) {
    && (forall i, j :: 0 <= i < j < |order| ==> order[i] != order[j])
    && (forall i :: 0 <= i < |order| ==> order[i] in data)
    && (forall k :: k in data ==> k in order)
  }

  // The pairs in dictionary order.
  function Pairs(order: seq<string>, data: map<string, string>): Items<string>
    requires forall i :: 0 <= i < |order| ==> order[i] in data
  {
    if order == [] then []
    else Pairs(order[..|order| - 1], data) + [(order[|order| - 1], data[order[|order| - 1]])]
  }

  lemma {:induction false} PairsAt(order: seq<string>, data: map<string, string>)
    requires forall i :: 0 <= i < |order| ==> order[i] in data
    ensures |Pairs(order, data)| == |order|
    ensures forall i :: 0 <= i < |order| ==> Pairs(order, data)[i] == (order[i], data[order[i]])
  {
    if order != [] {
      PairsAt(order[..|order| - 1], data);
    }
  }

  lemma PairsFacts(order: seq<string>, data: map<string, string>)
    requires Consistent(order, data)
    ensures Unique(Pairs(order, data)) && |Pairs(order, data)| == |order|
    ensures forall i :: 0 <= i < |order| ==> order[i] in data && Pairs(order, data)[i] == (order[i], data[order[i]])
    ensures Keys(Pairs(order, data)) == data.Keys
    ensures forall k :: k in data ==> Find(Pairs(order, data), k) == Some(data[k])
  {
    hide Pairs, Find, Keys;
    PairsAt(order, data);
    KeysOf(Pairs(order, data));
    forall k | k in data
      ensures k in Keys(Pairs(order, data)) && Find(Pairs(order, data), k) == Some(data[k])
    {
      var i :| 0 <= i < |order| && order[i] == k;
      assert Pairs(order, data)[i] == (k, data[k]);
      FindUnique(Pairs(order, data), k, data[k]);
    }
    KeysAre(Pairs(order, data), data.Keys);
  }

  lemma KeysAre(s: Items<string>, keys: set<string>)
    requires forall k :: k in keys ==> k in Keys(s)
    requires forall i :: 0 <= i < |s| ==> s[i].0 in keys
    ensures Keys(s) == keys
  {
  }

  // Pairs at the same positions are the same pairs.
  lemma PairsAre(order: seq<string>, data: map<string, string>, s: Items<string>)
    requires forall i :: 0 <= i < |order| ==> order[i] in data
    requires |s| == |order| && forall i :: 0 <= i < |order| ==> s[i] == (order[i], data[order[i]])
    ensures Pairs(order, data) == s
  {
    PairsAt(order, data);
  }

  lemma {:induction false} WithoutAt(s: Items<string>, i: nat)
    requires Unique(s) && i < |s|
    ensures Without(s, s[i].0) == s[..i] + s[i + 1..]
  {
    var t, e := s[..|s| - 1], s[|s| - 1];
    if i < |t| {
      WithoutAt(t, i);
      assert s[i + 1..] == t[i + 1..] + [e];
    } else {
      Split(s);
      WithoutKeys(t, e.0);
      assert s[..i] + s[i + 1..] == t;
    }
  }

  function Drop(order: seq<string>, i: nat): seq<string>
    requires i < |order|
  {
    order[..i] + order[i + 1..]
  }

  lemma HasPosition(order: seq<string>, data: map<string, string>, k: string)
    requires Consistent(order, data) && k in data
    ensures exists i :: 0 <= i < |order| && order[i] == k
  {
  }

  lemma DropKeeps(order: seq<string>, data: map<string, string>, i: nat)
    requires Consistent(order, data) && i < |order|
    ensures Consistent(Drop(order, i), data - {order[i]})
    ensures Consistent(Drop(order, i) + [order[i]], data)
    ensures forall j :: 0 <= j < |order| - 1 ==> Drop(order, i)[j] in data && Drop(order, i)[j] != order[i]
  {
    var r := Drop(order, i);
    assert forall j :: 0 <= j < |r| ==> r[j] == order[if j < i then j else j + 1];
    forall k | k in data && k != order[i]
      ensures k in r
    {
      var j :| 0 <= j < |order| && order[j] == k;
      assert r[if j < i then j else j - 1] == k;
    }
  }

  // Taking out one position of the order takes out its key.
  lemma PairsDrop(order: seq<string>, data: map<string, string>, i: nat, rest: map<string, string>)
    requires Consistent(order, data) && i < |order|
    requires rest == data || rest == data - {order[i]}
    ensures forall j :: 0 <= j < |order| - 1 ==> Drop(order, i)[j] in rest
    ensures Pairs(Drop(order, i), rest) == Without(Pairs(order, data), order[i])
  {
    hide Pairs, Without, Unique, Consistent, Keys;
    PairsFacts(order, data);
    DropKeeps(order, data, i);
    WithoutAt(Pairs(order, data), i);
    PairsAre(Drop(order, i), rest, Pairs(order, data)[..i] + Pairs(order, data)[i + 1..]);
  }

  lemma AddKeeps(order: seq<string>, data: map<string, string>, k: string, v: string)
    requires Consistent(order, data) && k !in data
    ensures Consistent(order + [k], data[k := v])
    ensures Pairs(order + [k], data[k := v]) == Pairs(order, data) + [(k, v)]
  {
    PairsSame(order, data, data[k := v]);
    PairsPush(order, data[k := v], k);
  }

  lemma ReplaceKeeps(order: seq<string>, data: map<string, string>, k: string, v: string)
    requires Consistent(order, data) && order != [] && order[|order| - 1] == k
    ensures Consistent(order, data[k := v])
    ensures |Pairs(order, data)| == |order|
    ensures Pairs(order, data[k := v]) == Pairs(order, data)[..|order| - 1] + [(k, v)]
  {
    PairsAt(order, data);
    PairsAt(order, data[k := v]);
  }

  lemma PairsPush(order: seq<string>, data: map<string, string>, k: string)
    requires k in data && forall i :: 0 <= i < |order| ==> order[i] in data
    ensures Pairs(order + [k], data) == Pairs(order, data) + [(k, data[k])]
  {
    assert (order + [k])[..|order|] == order;
  }

  lemma PairsSame(order: seq<string>, data: map<string, string>, other: map<string, string>)
    requires forall i :: 0 <= i < |order| ==> order[i] in data && order[i] in other && other[order[i]] == data[order[i]]
    ensures Pairs(order, data) == Pairs(order, other)
  {
    PairsAt(order, data);
    PairsAre(order, other, Pairs(order, data));
  }

  class LRUCache {
    const capacity: nat
    var order: seq<string>
    var data: map<string, string>
    var evictionCount: nat

    ghost predicate Valid()
      reads this
    {
      capacity >= 1 && |order| <= capacity && Consistent(order, data)
    }

    ghost function Contents(): Items<string>
      requires Valid()
      reads this
    {
      Pairs(order, data)
    }

    // Only a positive capacity is accepted.
    constructor (capacity: nat)
      requires capacity >= 1
      ensures Valid() && Contents() == [] && this.capacity == capacity && evictionCount == 0
    {
      this.capacity := capacity;
      order, data, evictionCount := [], map[], 0;
    }

    method MoveToEnd(key: string)
      requires Valid() && key in data
      modifies this`order
      ensures Valid()
      ensures Contents() == Without(old(Contents()), key) + [(key, data[key])]
      ensures order != [] && order[|order| - 1] == key
    {
      hide Pairs, Without, Consistent;
      HasPosition(order, data, key);
      var i :| 0 <= i < |order| && order[i] == key;
      PairsDrop(order, data, i, data);
      DropKeeps(order, data, i);
      PairsPush(Drop(order, i), data, key);
      order := Drop(order, i) + [key];
    }

    // False means that the key is empty and nothing was stored.
    method Set(key: string, value: string) returns (ok: bool)
      requires Valid()
      modifies this`order, this`data, this`evictionCount
      ensures Valid() && ok == (key != "")
      ensures Contents() == if ok then Put(capacity, old(Contents()), key, value) else old(Contents())
      ensures evictionCount == old(evictionCount) + (if ok && key !in old(data) && |old(order)| == capacity then 1 else 0)
    {
      hide Pairs, Without, Consistent, Keys;
      if key == "" {
        return false;
      }
      PairsFacts(order, data);
      if key in data {
        MoveToEnd(key);
        ReplaceKeeps(order, data, key, value);
        data := data[key := value];
      } else {
        if |order| >= capacity {
          var evicted := EvictLru();
        }
        AddKeeps(order, data, key, value);
        data := data[key := value];
        order := order + [key];
      }
      return true;
    }

    // A hit makes the key the most recent.
    method Get(key: string) returns (value: Option<string>)
      requires Valid()
      modifies this`order
      ensures Valid()
      ensures Contents() == Touch(old(Contents()), key)
      ensures value == Find(old(Contents()), key)
    {
      PairsFacts(order, data);
      if key !in data {
        return None;
      }
      MoveToEnd(key);
      return Some(data[key]);
    }

    method Has(key: string) returns (found: bool)
      requires Valid()
      ensures found == (key in Keys(Contents()))
    {
      PairsFacts(order, data);
      return key in data;
    }

    method Delete(key: string) returns (found: bool)
      requires Valid()
      modifies this`order, this`data
      ensures Valid()
      ensures found == (key in Keys(old(Contents())))
      ensures Contents() == Without(old(Contents()), key)
    {
      hide Pairs, Without, Keys, Consistent;
      PairsFacts(order, data);
      if key !in data {
        WithoutKeys(Contents(), key);
        return false;
      }
      HasPosition(order, data, key);
      var i :| 0 <= i < |order| && order[i] == key;
      PairsDrop(order, data, i, data - {key});
      DropKeeps(order, data, i);
      order, data := Drop(order, i), data - {key};
      return true;
    }

    method Clear()
      requires Valid()
      modifies this`order, this`data
      ensures Valid() && Contents() == []
    {
      order, data := [], map[];
    }

    method Size() returns (n: nat)
      requires Valid()
      ensures n == |Contents()|
    {
      PairsFacts(order, data);
      return |order|;
    }

    // Least recently used first.
    method ListItems() returns (s: seq<(string, string)>)
      requires Valid()
      ensures s == Contents()
    {
      s := [];
      for i := 0 to |order|
        invariant s == Pairs(order[..i], data)
      {
        assert order[..i + 1][..i] == order[..i];
        s := s + [(order[i], data[order[i]])];
      }
      assert order[..|order|] == order;
    }

    // Takes out the first key and counts it.
    method EvictLru() returns (evicted: Option<string>)
      requires Valid()
      modifies this`order, this`data, this`evictionCount
      ensures Valid()
      ensures old(Contents()) == [] ==> evicted == None && Contents() == [] && evictionCount == old(evictionCount)
      ensures old(Contents()) != [] ==>
        && evicted == Some(old(Contents())[0].0) && Contents() == old(Contents())[1..]
        && evictionCount == old(evictionCount) + 1
      ensures data.Keys <= old(data.Keys) && |order| <= |old(order)| && (|old(order)| > 0 ==> |order| < |old(order)|)
    {
      hide Pairs, Without, Consistent;
      PairsFacts(order, data);
      if order == [] {
        return None;
      }
      var key := order[0];
      PairsDrop(order, data, 0, data - {key});
      DropKeeps(order, data, 0);
      FirstOut(Contents());
      order, data := Drop(order, 0), data - {key};
      evictionCount := evictionCount + 1;
      return Some(key);
    }

    method PeekLru() returns (key: Option<string>)
      requires Valid()
      ensures key == if Contents() == [] then None else Some(Contents()[0].0)
    {
      PairsAt(order, data);
      return if order == [] then None else Some(order[0]);
    }

    method PeekMru() returns (key: Option<string>)
      requires Valid()
      ensures key == if Contents() == [] then None else Some(Contents()[|Contents()| - 1].0)
    {
      PairsAt(order, data);
      return if order == [] then None else Some(order[|order| - 1]);
    }
  }
}
