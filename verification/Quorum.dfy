/** How the two quorum sizes of the code meet. */
module Quorum {
  import opened Types
  import opened NodeModel

  /** The votes a winner really holds, its own included: the win is signalled on a granted reply. */
  function WinningVotes(size: nat): nat
    requires size > 0
  {
    Max(2, ElectionQuorum(size - 1))
  }

  /** Cluster sizes at which two winning sets cannot be disjoint. */
  predicate SafeSize(size: nat) {
    size % 2 == 1 || size == 2
  }

  lemma CardinalityBound(all: set<NodeID>, a: set<NodeID>)
    requires a <= all
    ensures |a| <= |all|
  {
    assert all == a + (all - a);
  }

  /** Two subsets too large to be disjoint share an element. */
  lemma Overlap(all: set<NodeID>, a: set<NodeID>, b: set<NodeID>) returns (x: NodeID)
    requires a <= all && b <= all && |a| + |b| > |all|
    ensures x in a && x in b
  {
    if a * b == {} {
      assert |a + b| == |a| + |b|;
      CardinalityBound(all, a + b);
      assert false;
    }
    x :| x in a * b;
  }

  lemma WinnersMeet(all: set<NodeID>, a: set<NodeID>, b: set<NodeID>) returns (x: NodeID)
    requires all != {} && SafeSize(|all|)
    requires a <= all && b <= all && |a| >= WinningVotes(|all|) && |b| >= WinningVotes(|all|)
    ensures x in a && x in b
  {
    x := Overlap(all, a, b);
  }

  /** At every size a winning set meets a committing set. */
  lemma WinnerMeetsCommitters(all: set<NodeID>, a: set<NodeID>, b: set<NodeID>) returns (x: NodeID)
    requires all != {}
    requires a <= all && b <= all && |a| >= ElectionQuorum(|all| - 1) && |b| >= CommitMajority(|all| - 1)
    ensures x in a && x in b
  {
    x := Overlap(all, a, b);
  }

  lemma {:induction false} SubsetOfSize(all: set<NodeID>, k: nat) returns (a: set<NodeID>)
    requires k <= |all|
    ensures a <= all && |a| == k
  {
    if k == 0 {
      a := {};
    } else {
      var rest := SubsetOfSize(all, k - 1);
      assert all == rest + (all - rest);
      var x :| x in all - rest;
      a := rest + {x};
    }
  }

  /** At every other size two disjoint winning sets exist. */
  lemma DisjointWinners(all: set<NodeID>) returns (a: set<NodeID>, b: set<NodeID>)
    requires all != {} && !SafeSize(|all|)
    ensures a <= all && b <= all && a !! b
    ensures |a| == |b| == WinningVotes(|all|)
  {
    a := SubsetOfSize(all, |all| / 2);
    b := all - a;
    assert |all| == |a| + |b| by { assert all == a + b; }
  }
}
