/** A leader's bookkeeping about its peers, as the object the code keeps. */
module LeaderMaps {
  import opened Types
  import opened CommitRule
  import IndexKeys
  import NodeModel
  import RaftLog

  function Names(peers: seq<NodeID>): set<NodeID> {
    set i | 0 <= i < |peers| :: peers[i]
  }

  /** Every peer is to be sent the entry after the leader's last, and is known to hold nothing. */
  method StartingMaps(peers: seq<NodeID>, lastIndex: nat) returns (next: map<NodeID, nat>, matches: map<NodeID, nat>)
    ensures NodeModel.LeaderState(next, matches) == NodeModel.NewLeaderState(Names(peers), lastIndex)
    ensures next.Keys == matches.Keys == Names(peers) && forall p :: p in next ==> next[p] == lastIndex + 1 && matches[p] == 0
  {
    next, matches := map[], map[];
    for i := 0 to |peers|
      invariant next.Keys == matches.Keys == Names(peers[..i])
      invariant forall p :: p in next ==> next[p] == lastIndex + 1
      invariant forall p :: p in matches ==> matches[p] == 0
    {
      next := next[peers[i] := lastIndex + 1];
      matches := matches[peers[i] := 0];
      assert Names(peers[..i + 1]) == Names(peers[..i]) + {peers[i]};
    }
    assert peers[..|peers|] == peers;
    ghost var start := NodeModel.NewLeaderState(Names(peers), lastIndex);
    assert next == start.nextIndex && matches == start.matchIndex;
  }

  class LeaderState {
    var nextIndex: map<NodeID, nat>
    var matchIndex: map<NodeID, nat>

    ghost function View(): NodeModel.LeaderState
      reads this
    {
      NodeModel.LeaderState(nextIndex, matchIndex)
    }

    constructor (peers: seq<NodeID>, lastIndex: nat)
      ensures View() == NodeModel.NewLeaderState(Names(peers), lastIndex)
      ensures nextIndex.Keys == matchIndex.Keys == Names(peers)
      ensures forall p :: p in nextIndex ==> nextIndex[p] == lastIndex + 1 && matchIndex[p] == 0
    {
      var next, matches := StartingMaps(peers, lastIndex);
      nextIndex, matchIndex := next, matches;
    }

    /** A follower acknowledged up to `reported`. */
    method RecordMatch(p: NodeID, reported: nat)
      modifies this
      ensures var m := Max(Lookup(old(matchIndex), p), reported);
              View() == NodeModel.LeaderState(old(nextIndex)[p := m + 1], old(matchIndex)[p := m])
    {
      if reported > Lookup(matchIndex, p) {
        matchIndex := matchIndex[p := reported];
      }
      var m := Lookup(matchIndex, p);
      nextIndex := nextIndex[p := m + 1];
      matchIndex := matchIndex[p := m];
    }

    method SetNext(p: NodeID, next: nat)
      modifies this
      ensures View() == NodeModel.LeaderState(old(nextIndex)[p := next], old(matchIndex))
    {
      nextIndex := nextIndex[p := next];
    }

    /** How many peers, and the leader, hold index `n`. */
    method CountHolders(n: nat) returns (count: nat)
      ensures count == 1 + |NodeModel.Holders(matchIndex, n)|
    {
      count := 1;
      var rest := matchIndex.Keys;
      while rest != {}
        invariant rest <= matchIndex.Keys
        invariant count == 1 + |set p | p in matchIndex && p !in rest && matchIndex[p] >= n|
        decreases rest
      {
        var p :| p in rest;
        ghost var counted := set q | q in matchIndex && q !in rest && matchIndex[q] >= n;
        rest := rest - {p};
        ghost var counted' := set q | q in matchIndex && q !in rest && matchIndex[q] >= n;
        if matchIndex[p] >= n {
          count := count + 1;
          assert counted' == counted + {p};
        } else {
          assert counted' == counted;
        }
      }
      assert (set p | p in matchIndex && p !in rest && matchIndex[p] >= n) == NodeModel.Holders(matchIndex, n);
    }

    /** The downward scan for an index to commit. */
    method ScanDown(commit: nat, last: nat, term: nat, log: RaftLog.RaftLog) returns (r: nat)
      requires log.Valid() && last < IndexKeys.INDEX_LIMIT
      ensures r == NodeModel.CommitScan(matchIndex, commit, last, term, log.View())
    {
      ghost var l := log.View();
      var majority := (|matchIndex| + 1) / 2 + 1;
      var n: nat := last;
      while n > commit
        invariant n <= last
        invariant NodeModel.CommitScan(matchIndex, commit, n, term, l) ==
                  NodeModel.CommitScan(matchIndex, commit, last, term, l)
      {
        var termAt := log.TermAt(n);
        if termAt == term {
          var count := CountHolders(n);
          if count >= majority {
            return n;
          }
        }
        n := n - 1;
      }
      r := 0;
    }

    /** The greatest index above `commit`, up to `last`, that is of the current term and held by a
        majority; 0 if there is none. */
    method CommitCandidate(commit: nat, last: nat, term: nat, log: RaftLog.RaftLog) returns (r: nat)
      requires log.Valid() && last < IndexKeys.INDEX_LIMIT
      ensures r == NodeModel.CommitScan(matchIndex, commit, last, term, log.View())
      ensures r == 0 || (commit < r <= last && Committable(matchIndex, term, log.View(), r))
      ensures forall i :: commit < i <= last && Committable(matchIndex, term, log.View(), i) ==> i <= r
    {
      r := ScanDown(commit, last, term, log);
      ScanIsGreatest(matchIndex, commit, last, term, log.View());
    }
  }
}
