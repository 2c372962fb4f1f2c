// Majorities of one membership and of memberships one change apart.
module Quorums {
  import opened Types

  // _majority() is len(members) // 2 + 1; q has that many of the members c.
  predicate IsMajority(q: set<NodeId>, c: set<NodeId>) {
    q <= c && |q| >= |c| / 2 + 1
  }

  // Two memberships that differ by exactly one node.
  ghost predicate OneChange(c: set<NodeId>, d: set<NodeId>) {
    (exists x :: x !in c && d == c + {x}) || (exists x :: x in c && d == c - {x})
  }

  lemma OneChangeSize(c: set<NodeId>, d: set<NodeId>)
    requires OneChange(c, d)
    ensures (c <= d && |d| == |c| + 1) || (d <= c && |c| == |d| + 1)
  {
    if x :| x !in c && d == c + {x} {
    } else {
      var x :| x in c && d == c - {x};
    }
  }

  lemma SubsetSize(a: set<NodeId>, b: set<NodeId>)
    requires a <= b
    ensures |a| <= |b|
  {
    assert b == a + (b - a);
  }

  // Majorities of equal or neighbouring memberships share a node.
  lemma MajoritiesMeet(q: set<NodeId>, c: set<NodeId>, r: set<NodeId>, d: set<NodeId>) returns (v: NodeId)
    requires IsMajority(q, c) && IsMajority(r, d)
    requires c == d || OneChange(c, d)
    ensures v in q && v in r
  {
    if q * r == {} {
      assert |q + r| == |q| + |r|;
      if c != d {
        OneChangeSize(c, d);
      }
      if c <= d {
        SubsetSize(q + r, d);
      } else {
        SubsetSize(q + r, c);
      }
      assert false;
    }
    v :| v in q * r;
  }
}
