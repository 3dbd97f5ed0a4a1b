/** The log a candidate advertised in its vote requests is the log it wins with, for every variant of the
    code, exactly at the cluster sizes where a term has one leader. */
module Advertised {
  import opened Types
  import opened LogModel
  import opened NodeModel
  import opened Quorum
  import opened Cluster
  import opened History
  import opened ElectionSafety
  import opened Scenario
  import EvenCluster
  import SplitBrain
  import Splice

  // ---------------------------------------------------------------------
  // The invariant
  // ---------------------------------------------------------------------

  /** Until its term has a leader, a candidate's request says how its log ends. */
  ghost predicate SaysTrue(h: History, v: NodeID, n: Node, req: VoteRequest) {
    req.candidateId == v && req.term == n.currentTerm && n.role == Candidate && n.currentTerm !in h.elected ==>
      req == Campaign(v, n)
  }

  ghost predicate AdvertInv(cfg: Config, h: History, c: State) {
    forall v, req :: v in cfg.nodes && v in c.nodes && VoteReq(req) in c.msgs ==> SaysTrue(h, v, c.nodes[v], req)
  }

  /** Whoever is a candidate after a step other than standing, in a term without a leader, was one before
      it with the same log: only the term's leader could have changed it. */
  lemma CandidateKeeps(cfg: Config, h: History, v: NodeID, n: Node, ev: Event)
    requires !ev.Timeout? && (ev.RecvAppend? ==> MessageVotes(cfg, h, AppendReq(v, ev.append)))
    ensures var n' := NodeStep(cfg, v, n, ev).0;
            n'.role == Candidate && n'.currentTerm !in h.elected ==>
              n.role == Candidate && n.currentTerm == n'.currentTerm && n'.log == n.log
  {
    match ev
    case RecvAppend(req) => HandleAppendShape(cfg.variant, v, n, req);
    case Apply => ApplyKeepsVotes(n);
    case _ =>
  }

  /** Nobody has asked for votes in a term it has not reached. */
  lemma NotYetAsked(cfg: Config, h: History, v: NodeID, n: Node, req: VoteRequest)
    requires NodeVotes(cfg, h, v, n) && MessageVotes(cfg, h, VoteReq(req)) && req.candidateId == v
    ensures req.term <= n.currentTerm
  {
    assert CastOk(h, v, n, req.term);
  }

  lemma OwnRequests(cfg: Config, h: History, h': History, c: State, a: Label, req: VoteRequest)
    requires VotesInv(cfg, h, c) && AdvertInv(cfg, h, c) && VotesGrow(h, h') && Enabled(cfg, c, a.node, a.event)
    requires VoteReq(req) in Next(cfg, c, a).msgs
    ensures SaysTrue(h', a.node, Next(cfg, c, a).nodes[a.node], req)
  {
    var v, n := a.node, c.nodes[a.node];
    assert NodeVotes(cfg, h, v, n);
    if VoteReq(req) in c.msgs {
      assert MessageVotes(cfg, h, VoteReq(req)) && SaysTrue(h, v, n, req);
      if req.candidateId == v { NotYetAsked(cfg, h, v, n, req); }
      if a.event.RecvAppend? { assert MessageVotes(cfg, h, AppendReq(v, a.event.append)); }
      if !a.event.Timeout? { CandidateKeeps(cfg, h, v, n, a.event); }
    }
  }

  /** A new request is about the node that sends it. */
  lemma OthersRequests(cfg: Config, c: State, a: Label, v: NodeID, req: VoteRequest)
    requires Enabled(cfg, c, a.node, a.event) && v != a.node
    requires VoteReq(req) in Next(cfg, c, a).msgs && VoteReq(req) !in c.msgs
    ensures req.candidateId != v
  {
  }

  lemma AdvertInvStep(cfg: Config, h: History, c: State, a: Label)
    requires cfg.Valid() && SafeSize(|cfg.nodes|) && VotesInv(cfg, h, c) && AdvertInv(cfg, h, c)
    requires Enabled(cfg, c, a.node, a.event)
    ensures AdvertInv(cfg, Record(cfg, h, a.node, c.nodes[a.node], a.event), Next(cfg, c, a))
  {
    hide VotesInv;
    var h', c' := Record(cfg, h, a.node, c.nodes[a.node], a.event), Next(cfg, c, a);
    VotesInvStep(cfg, h, c, a);
    forall v, req | v in cfg.nodes && v in c'.nodes && VoteReq(req) in c'.msgs ensures SaysTrue(h', v, c'.nodes[v], req) {
      if v == a.node {
        OwnRequests(cfg, h, h', c, a, req);
      } else if VoteReq(req) in c.msgs {
        assert SaysTrue(h, v, c.nodes[v], req);
      } else {
        OthersRequests(cfg, c, a, v, req);
      }
    }
  }

  lemma {:induction false} AdvertInvAlways(cfg: Config, r: Run, hs: seq<History>, i: nat)
    requires IsRun(cfg, r) && Recorded(cfg, r, hs) && SafeSize(|cfg.nodes|) && i <= |r.labels|
    ensures AdvertInv(cfg, hs[i], r.states[i])
  {
    hide VotesInv;
    if i > 0 {
      AdvertInvAlways(cfg, r, hs, i - 1);
      VotesInvAlways(cfg, r, hs, i - 1);
      assert StepAt(cfg, r, i - 1) && RecordedAt(cfg, r, hs, i - 1);
      AdvertInvStep(cfg, hs[i - 1], r.states[i - 1], r.labels[i - 1]);
    }
  }

  // ---------------------------------------------------------------------
  // The results
  // ---------------------------------------------------------------------

  /** `v`, about to win, holds the log its vote request `req` of that term advertised. */
  ghost predicate WinsAsAdvertised(v: NodeID, n: Node, req: VoteRequest) {
    n.election.Some? && n.election.value.term == n.currentTerm && req == Campaign(v, n)
  }

  ghost predicate WinsOn(cfg: Config, r: Run, i: nat, v: NodeID, req: VoteRequest) {
    && i < |r.states| && v in r.states[i].nodes && VoteReq(req) in r.states[i].msgs
    && Wins(cfg.Peers(v), r.states[i].nodes[v])
    && req.candidateId == v && req.term == r.states[i].nodes[v].currentTerm
  }

  /** A node about to win holds exactly the log its vote requests of that term advertised. */
  lemma WinnerIsAsAdvertised(cfg: Config, r: Run, i: nat, v: NodeID, req: VoteRequest)
    requires IsRun(cfg, r) && SafeSize(|cfg.nodes|) && WinsOn(cfg, r, i, v, req)
    ensures WinsAsAdvertised(v, r.states[i].nodes[v], req)
  {
    var hs := Histories(cfg, r);
    VotesInvAlways(cfg, r, hs, i);
    AdvertInvAlways(cfg, r, hs, i);
    var n := r.states[i].nodes[v];
    assert NodeVotes(cfg, hs[i], v, n);
    WinnerIsFirst(cfg, hs[i], v, n);
    assert SaysTrue(hs[i], v, n, req);
  }

  /** At every other size the leader of a term can change the log of a candidate that is about to win it. */
  lemma LogChangedUnderCandidate(cfg: Config) returns (r: Run, b: NodeID, req: VoteRequest)
    requires cfg.Valid() && !SafeSize(|cfg.nodes|)
    ensures IsRun(cfg, r) && WinsOn(cfg, r, |r.labels|, b, req)
    ensures !WinsAsAdvertised(b, r.states[|r.labels|].nodes[b], req)
  {
    var c;
    c, b, req := ChangedState(cfg);
    r :| EndsIn(cfg, r, c);
  }

  lemma ChangedState(cfg: Config) returns (c: State, b: NodeID, req: VoteRequest)
    requires cfg.Valid() && !SafeSize(|cfg.nodes|)
    ensures At(cfg, c) && b in cfg.nodes && VoteReq(req) in c.msgs && Wins(cfg.Peers(b), c.nodes[b])
    ensures req.candidateId == b && req.term == c.nodes[b].currentTerm && req != Campaign(b, c.nodes[b])
  {
    hide Reachable;
    var a, va, vb, w;
    a, b, va, vb, w := SplitBrain.CastExists(cfg);
    c := RivalWins(cfg, a, b, va, vb);
    c := HearsRival(cfg, c, a, b, vb);
    req := VoteRequest(1, b, 0, 0);
    FromSeqReads([Entry(1, 1)]);
  }

  /** `a` leads term 1, and `b` has the votes of `vb` and has not counted itself the winner yet. */
  lemma RivalWins(cfg: Config, a: NodeID, b: NodeID, va: set<NodeID>, vb: set<NodeID>) returns (c: State)
    requires cfg.Valid() && a != b && Elects(cfg, a, va) && Elects(cfg, b, vb)
    requires a !in vb && b !in va && forall v :: v in va ==> v !in vb
    ensures At(cfg, c) && c.nodes[a] == Leading(a, 1, FromSeq([Entry(1, 1)]), NewMaps(cfg, a, 0), 0)
    ensures c.nodes[b] == Campaigning(cfg.Peers(b), b, 1, EMPTY, NO_NODE, vb) && VoteReq(VoteRequest(1, b, 0, 0)) in c.msgs
  {
    hide Reachable;
    EmptyReads();
    c := EvenCluster.BothStand(cfg, a, b);
    c := ElectFirst(cfg, c, a, 1, va);
    c := Poll(cfg, c, b, 1, EMPTY, NO_NODE, {}, vb);
    assert {} + vb == vb;
  }

  /** The candidate takes the no-op of the node that won before it, and stays a candidate. */
  lemma HearsRival(cfg: Config, c: State, a: NodeID, b: NodeID, vb: set<NodeID>) returns (c': State)
    requires At(cfg, c) && a in cfg.nodes && b in cfg.Peers(a)
    requires c.nodes[a] == Leading(a, 1, FromSeq([Entry(1, 1)]), NewMaps(cfg, a, 0), 0)
    requires c.nodes[b] == Campaigning(cfg.Peers(b), b, 1, EMPTY, NO_NODE, vb)
    ensures At(cfg, c') && c.msgs <= c'.msgs
    ensures c'.nodes[b] == Campaigning(cfg.Peers(b), b, 1, FromSeq([Entry(1, 1)]), a, vb)
  {
    var xs := [Entry(1, 1)];
    var req := RequestFor(a, b, 1, xs, NewMaps(cfg, a, 0), 0);
    assert xs[0..] == xs;
    c' := SendMove(cfg, c, a, b, req);
    CandidateTakes(cfg.variant, cfg.Peers(b), a, b, vb);
    c' := AppendMove(cfg, c', b, req, Campaigning(cfg.Peers(b), b, 1, FromSeq(xs), a, vb), AppendResponse(1, true, b, 1, 0, 0));
  }

  lemma CandidateTakes(variant: Variant, peers: set<NodeID>, a: NodeID, b: NodeID, vb: set<NodeID>)
    ensures HandleAppend(variant, b, Campaigning(peers, b, 1, EMPTY, NO_NODE, vb), AppendRequest(1, a, 0, 0, [Entry(1, 1)], 0)) ==
            (Campaigning(peers, b, 1, FromSeq([Entry(1, 1)]), a, vb), AppendResponse(1, true, b, 1, 0, 0))
  {
    var xs := [Entry(1, 1)];
    EmptyReads();
    Splice.AppendsAtEnd(variant.rereadTerm, [], xs);
    assert [] + xs == xs;
    FromSeqReads(xs);
  }

  /** Over all runs of a cluster, winners hold what they advertised exactly when its size is odd or two. */
  lemma AdvertisedIff(cfg: Config)
    requires cfg.Valid()
    ensures SafeSize(|cfg.nodes|) <==>
            forall r, i: nat, v, req :: IsRun(cfg, r) && WinsOn(cfg, r, i, v, req) ==> WinsAsAdvertised(v, r.states[i].nodes[v], req)
  {
    if SafeSize(|cfg.nodes|) {
      forall r, i: nat, v, req | IsRun(cfg, r) && WinsOn(cfg, r, i, v, req)
        ensures WinsAsAdvertised(v, r.states[i].nodes[v], req)
      {
        WinnerIsAsAdvertised(cfg, r, i, v, req);
      }
    } else {
      var r, b, req := LogChangedUnderCandidate(cfg);
    }
  }
}
