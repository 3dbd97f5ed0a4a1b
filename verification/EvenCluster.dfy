/** The election quorum counts the peers and not the node itself. Two leaders of one term are
    therefore possible exactly at the cluster sizes where two winning sets can be disjoint. */
module EvenCluster {
  import opened Types
  import opened LogModel
  import opened Quorum
  import opened Cluster
  import opened ElectionSafety
  import opened History
  import opened Scenario

  /** Two nodes stand for term 1 before anyone has voted. */
  lemma BothStand(cfg: Config, v: NodeID, w: NodeID) returns (c: State)
    requires cfg.Valid() && v in cfg.nodes && w in cfg.nodes && v != w
    ensures At(cfg, c)
    ensures forall u :: u in {v, w} ==> c.nodes[u] == Campaigning(cfg.Peers(u), u, 1, EMPTY, NO_NODE, {})
    ensures forall u :: u in {v, w} ==> VoteReq(VoteRequest(1, u, LastIndex(EMPTY), LastTerm(EMPTY))) in c.msgs
    ensures forall u :: u in cfg.nodes - {v, w} ==> c.nodes[u] == Voter(0, NO_NODE)
  {
    c := Start(cfg);
    c := StandMove(cfg, c, v, 0, NO_NODE, EMPTY, NO_NODE);
    c := StandMove(cfg, c, w, 0, NO_NODE, EMPTY, NO_NODE);
  }

  /** A candidate for term 1 and its supporters make it a leader and leave the other nodes as they were. */
  lemma ElectSide(cfg: Config, c: State, v: NodeID, side: set<NodeID>) returns (c': State)
    requires At(cfg, c) && v in side && side <= cfg.nodes && |side| >= 2 && |side| >= WinningVotes(|cfg.nodes|)
    requires c.nodes[v] == Campaigning(cfg.Peers(v), v, 1, EMPTY, NO_NODE, {})
    requires VoteReq(VoteRequest(1, v, LastIndex(EMPTY), LastTerm(EMPTY))) in c.msgs
    requires forall p :: p in side - {v} ==> c.nodes[p] == Voter(0, NO_NODE)
    ensures At(cfg, c') && c.msgs <= c'.msgs
    ensures c'.nodes[v].role == Leader && c'.nodes[v].currentTerm == 1
    ensures forall w :: w in cfg.nodes && w !in side ==> c'.nodes[w] == c.nodes[w]
  {
    var voters := side - {v};
    assert |voters| == |side| - 1;
    assert |cfg.Peers(v)| == |cfg.nodes| - 1;
    c' := Elect(cfg, c, v, 1, EMPTY, NO_NODE, voters);
  }

  /** At every unsafe size, for every set of nodes, some run has two leaders of one term at once. */
  lemma TwoLeaders(cfg: Config) returns (r: Run, v: NodeID, w: NodeID)
    requires cfg.Valid() && !SafeSize(|cfg.nodes|)
    ensures IsRun(cfg, r) && v != w
    ensures LeadsAt(r, |r.labels|, v, 1) && LeadsAt(r, |r.labels|, w, 1)
  {
    var A, B := DisjointWinners(cfg.nodes);
    assert |A| >= 2 && |B| >= 2;
    v :| v in A;
    w :| w in B;
    var c := BothStand(cfg, v, w);
    c := ElectSide(cfg, c, v, A);
    c := ElectSide(cfg, c, w, B);
    r :| EndsIn(cfg, r, c);
  }

  // ---------------------------------------------------------------------
  // The exact condition
  // ---------------------------------------------------------------------

  /** Whoever leads a term, at any two points of any run, is the same node. */
  ghost predicate ElectionSafe(cfg: Config) {
    forall r, i, j, v, w, t ::
      IsRun(cfg, r) && 0 <= i < |r.states| && 0 <= j < |r.states| && 0 <= t && LeadsAt(r, i, v, t) && LeadsAt(r, j, w, t) ==> v == w
  }

  /** Election Safety, for the quorum as the code computes it and for either variant of the rest:
      it holds exactly for odd clusters and for the cluster of two. */
  lemma ElectionSafetyIff(cfg: Config)
    requires cfg.Valid()
    ensures ElectionSafe(cfg) <==> SafeSize(|cfg.nodes|)
  {
    if SafeSize(|cfg.nodes|) {
      forall r, i, j, v, w, t |
        IsRun(cfg, r) && 0 <= i < |r.states| && 0 <= j < |r.states| && 0 <= t && LeadsAt(r, i, v, t) && LeadsAt(r, j, w, t)
        ensures v == w
      {
        OneLeaderPerTerm(cfg, r, i, j, v, w, t);
      }
    } else {
      var r, v, w := TwoLeaders(cfg);
      assert LeadsAt(r, |r.labels|, v, 1) && LeadsAt(r, |r.labels|, w, 1);
    }
  }

  /** A cluster of one never has a leader: the win is signalled only on a reply. */
  lemma LoneNodeNeverLeads(cfg: Config, r: Run, i: nat, v: NodeID, t: nat)
    requires IsRun(cfg, r) && |cfg.nodes| == 1 && i < |r.states|
    ensures !LeadsAt(r, i, v, t)
  {
    if LeadsAt(r, i, v, t) {
      var hs := Histories(cfg, r);
      VotesInvAlways(cfg, r, hs, i);
      assert NodeVotes(cfg, hs[i], v, r.states[i].nodes[v]) && WonOk(cfg, hs[i], t);
      CardinalityBound(cfg.nodes, hs[i].elected[t].electors);
      assert false;
    }
  }
}
