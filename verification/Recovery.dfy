/** No run is stuck: whatever has happened, in every variant and at every size from two nodes up, some node
    can still be elected. */
module Recovery {
  import opened Types
  import opened LogModel
  import opened NodeModel
  import opened Cluster
  import opened Handlers
  import opened Safety
  import ElectionSafety
  import Scenario
  import Terms

  /** `r'` goes on where `r` ends. */
  ghost predicate Continues(cfg: Config, r: Run, r': Run) {
    IsRun(cfg, r) && IsRun(cfg, r') && r.states <= r'.states && r.labels <= r'.labels
  }

  ghost function End(r: Run): State
    requires |r.states| == |r.labels| + 1
  {
    r.states[|r.labels|]
  }

  /** The run, with all nodes in place at its end. */
  ghost predicate Going(cfg: Config, r: Run) {
    |r.states| == |r.labels| + 1 && IsRun(cfg, r) && End(r).nodes.Keys == cfg.nodes
  }

  lemma Go(cfg: Config, r: Run, v: NodeID, ev: Event) returns (r': Run)
    requires Going(cfg, r) && Enabled(cfg, End(r), v, ev)
    ensures Going(cfg, r') && Continues(cfg, r, r') && End(r') == Next(cfg, End(r), Label(v, ev))
  {
    r' := Scenario.OneMore(cfg, r, End(r), Label(v, ev));
  }

  lemma Stays(cfg: Config, r: Run)
    requires IsRun(cfg, r)
    ensures Continues(cfg, r, r)
  {
  }

  lemma Onward(cfg: Config, r: Run, r': Run, r'': Run)
    requires Continues(cfg, r, r') && Continues(cfg, r', r'')
    ensures Continues(cfg, r, r'')
  {
  }

  // ---------------------------------------------------------------------
  // Who can be elected
  // ---------------------------------------------------------------------

  ghost predicate NoWorse(l: Log, l': Log) {
    EndsNoEarlier(LastTerm(l), LastIndex(l), LastTerm(l'), LastIndex(l'))
  }

  /** Among any nodes there is one whose log is no worse than any other's. */
  lemma {:induction false} BestExists(nodes: map<NodeID, Node>, vs: set<NodeID>) returns (v: NodeID)
    requires vs != {} && vs <= nodes.Keys
    ensures v in vs && forall w :: w in vs ==> NoWorse(nodes[v].log, nodes[w].log)
    decreases vs
  {
    var x :| x in vs;
    var rest := vs - {x};
    if rest == {} {
      v := x;
      forall w | w in vs ensures NoWorse(nodes[v].log, nodes[w].log) {
        assert w in rest || w == x;
      }
    } else {
      var u := BestExists(nodes, rest);
      v := if NoWorse(nodes[x].log, nodes[u].log) then x else u;
      forall w | w in vs ensures NoWorse(nodes[v].log, nodes[w].log) {
        if w != x { assert w in rest && NoWorse(nodes[u].log, nodes[w].log); }
      }
    }
  }

  /** Some term is later than those of all nodes. */
  lemma {:induction false} LaterTermExists(nodes: map<NodeID, Node>, vs: set<NodeID>) returns (t: nat)
    requires vs <= nodes.Keys
    ensures forall w :: w in vs ==> nodes[w].currentTerm < t
    decreases vs
  {
    if vs == {} {
      t := 0;
    } else {
      var v :| v in vs;
      var t1 := LaterTermExists(nodes, vs - {v});
      t := Max(t1, nodes[v].currentTerm + 1);
    }
  }

  // ---------------------------------------------------------------------
  // Starting over
  // ---------------------------------------------------------------------

  ghost predicate Reopened(n: Node) {
    n.log.snapshot == n.log.saved
  }

  lemma {:induction false} SpliceKeepsBoundary(reread: bool, l: Log, prev: nat, entries: seq<LogEntry>)
    ensures var l' := NodeModel.Splice(reread, l, prev, entries); l'.snapshot == l.snapshot && l'.saved == l.saved
    decreases |entries|
  {
    if entries != [] {
      var existing := TermAt(l, prev + 1);
      var l1 := if existing != 0 && existing != entries[0].term then TruncateFrom(l, prev + 1) else l;
      var found := if reread then TermAt(l1, prev + 1) else existing;
      SpliceKeepsBoundary(reread, if found == 0 then Append(l1, entries[0]) else l1, prev + 1, entries[1..]);
    }
  }

  lemma StepReopened(cfg: Config, v: NodeID, n: Node, ev: Event)
    requires Reopened(n)
    ensures Reopened(NodeStep(cfg, v, n, ev).0)
  {
    match ev
    case RecvAppend(req) => SpliceKeepsBoundary(cfg.variant.rereadTerm, n.log, req.prevLogIndex, req.entries);
    case Apply => ElectionSafety.ApplyKeepsVotes(n);
    case _ =>
  }

  lemma {:induction false} AlwaysReopened(cfg: Config, r: Run, i: nat, v: NodeID)
    requires IsRun(cfg, r) && In(r, i, v)
    ensures Reopened(NodeAt(r, i, v))
  {
    if i > 0 {
      assert StepAt(cfg, r, i - 1);
      AlwaysReopened(cfg, r, i - 1, v);
      if r.labels[i - 1].node == v { StepReopened(cfg, v, NodeAt(r, i - 1, v), r.labels[i - 1].event); }
    }
  }

  /** A node that stands by: no leader, no election outstanding, nothing applied since it started. */
  ghost predicate Standby(n: Node, l: Log, t: nat) {
    n.role != Leader && n.election.None? && n.log == l && n.currentTerm == t && n.commitIndex == n.lastApplied == 0
  }

  ghost predicate OthersSame(cfg: Config, c: State, c': State, v: NodeID) {
    c.nodes.Keys == c'.nodes.Keys == cfg.nodes && forall w :: w in cfg.nodes && w != v ==> c'.nodes[w] == c.nodes[w]
  }

  lemma StartOver(cfg: Config, r: Run, v: NodeID) returns (r': Run)
    requires Going(cfg, r) && v in cfg.nodes
    ensures Going(cfg, r') && Continues(cfg, r, r') && OthersSame(cfg, End(r), End(r'), v)
    ensures Standby(End(r').nodes[v], End(r).nodes[v].log, End(r).nodes[v].currentTerm)
  {
    AlwaysReopened(cfg, r, |r.labels|, v);
    Terms.SaneAlways(cfg, r, |r.labels|, v);
    r' := Go(cfg, r, v, Crash);
  }

  /** Standing without asking anyone raises the term by one. */
  lemma StandAlone(cfg: Config, r: Run, v: NodeID, l: Log, t: nat) returns (r': Run)
    requires Going(cfg, r) && v in cfg.nodes && Standby(End(r).nodes[v], l, t)
    ensures Going(cfg, r') && Continues(cfg, r, r') && OthersSame(cfg, End(r), End(r'), v)
    ensures Standby(End(r').nodes[v], l, t + 1)
  {
    var r1 := Go(cfg, r, v, Timeout);
    r' := Go(cfg, r1, v, EndElection);
    Onward(cfg, r, r1, r');
  }

  lemma {:induction false} StandUntil(cfg: Config, r: Run, v: NodeID, l: Log, t: nat, t': nat) returns (r': Run)
    requires Going(cfg, r) && v in cfg.nodes && Standby(End(r).nodes[v], l, t) && t <= t'
    ensures Going(cfg, r') && Continues(cfg, r, r') && OthersSame(cfg, End(r), End(r'), v)
    ensures Standby(End(r').nodes[v], l, t')
    decreases t' - t
  {
    if t == t' {
      r' := r;
    } else {
      var r1 := StandAlone(cfg, r, v, l, t);
      r' := StandUntil(cfg, r1, v, l, t + 1, t');
      Onward(cfg, r, r1, r');
    }
  }

  // ---------------------------------------------------------------------
  // The election
  // ---------------------------------------------------------------------

  /** A candidate of term `t` that holds the votes of `votes`. */
  ghost predicate Polling(cfg: Config, n: Node, v: NodeID, l: Log, t: nat, votes: set<NodeID>) {
    && n.role == Candidate && n.log == l && n.currentTerm == t && n.commitIndex == n.lastApplied == 0
    && n.election == Some(Election(t, cfg.Peers(v) - votes, votes))
  }

  lemma WillVote(w: NodeID, n: Node, req: VoteRequest, l: Log)
    requires n.currentTerm < req.term && req.lastLogIndex == LastIndex(l) && req.lastLogTerm == LastTerm(l) && NoWorse(l, n.log)
    ensures HandleVote(w, n, req).1 == VoteResponse(req.term, true, w)
    ensures HandleVote(w, n, req).0.currentTerm == req.term && HandleVote(w, n, req).0.log == n.log
  {
  }

  ghost function Ballot(v: NodeID, l: Log, t: nat): VoteRequest {
    VoteRequest(t, v, LastIndex(l), LastTerm(l))
  }

  lemma Stand(cfg: Config, r: Run, v: NodeID, l: Log, t: nat) returns (r': Run)
    requires Going(cfg, r) && v in cfg.nodes && Standby(End(r).nodes[v], l, t)
    ensures Going(cfg, r') && Continues(cfg, r, r') && OthersSame(cfg, End(r), End(r'), v)
    ensures Polling(cfg, End(r').nodes[v], v, l, t + 1, {}) && VoteReq(Ballot(v, l, t + 1)) in End(r').msgs
  {
    r' := Go(cfg, r, v, Timeout);
    assert cfg.Peers(v) - {} == cfg.Peers(v);
  }

  lemma AskOne(cfg: Config, r: Run, v: NodeID, l: Log, t: nat, votes: set<NodeID>, w: NodeID) returns (r': Run)
    requires Going(cfg, r) && v in cfg.nodes && w in cfg.Peers(v) - votes && Polling(cfg, End(r).nodes[v], v, l, t, votes)
    requires VoteReq(Ballot(v, l, t)) in End(r).msgs && End(r).nodes[w].currentTerm < t && NoWorse(l, End(r).nodes[w].log)
    ensures Going(cfg, r') && Continues(cfg, r, r') && Polling(cfg, End(r').nodes[v], v, l, t, votes + {w})
    ensures VoteReq(Ballot(v, l, t)) in End(r').msgs
    ensures End(r').nodes[w].currentTerm == t && End(r').nodes[w].log == End(r).nodes[w].log
    ensures forall u :: u in cfg.nodes && u != v && u != w ==> End(r').nodes[u] == End(r).nodes[u]
  {
    var req := Ballot(v, l, t);
    WillVote(w, End(r).nodes[w], req, l);
    var r1 := Go(cfg, r, w, RecvVote(req));
    r' := CountOne(cfg, r1, v, l, t, votes, w, req);
    Onward(cfg, r, r1, r');
  }

  lemma CountOne(cfg: Config, r: Run, v: NodeID, l: Log, t: nat, votes: set<NodeID>, w: NodeID, req: VoteRequest) returns (r': Run)
    requires Going(cfg, r) && v in cfg.nodes && w in cfg.Peers(v) - votes && Polling(cfg, End(r).nodes[v], v, l, t, votes)
    requires VoteResp(req, VoteResponse(t, true, w)) in End(r).msgs && req.candidateId == v && req.term == t
    ensures Going(cfg, r') && Continues(cfg, r, r') && Polling(cfg, End(r').nodes[v], v, l, t, votes + {w})
    ensures End(r').msgs == End(r).msgs && OthersSame(cfg, End(r), End(r'), v)
  {
    assert cfg.Peers(v) - votes - {w} == cfg.Peers(v) - (votes + {w});
    r' := Go(cfg, r, v, RecvVoteReply(req, VoteResponse(t, true, w)));
  }

  /** Every node of `ws` votes for `v`. */
  lemma {:induction false} AskAll(cfg: Config, r: Run, v: NodeID, l: Log, t: nat, votes: set<NodeID>, ws: set<NodeID>) returns (r': Run)
    requires Going(cfg, r) && v in cfg.nodes && ws <= cfg.Peers(v) - votes && Polling(cfg, End(r).nodes[v], v, l, t, votes)
    requires VoteReq(Ballot(v, l, t)) in End(r).msgs
    requires forall w :: w in ws ==> End(r).nodes[w].currentTerm < t && NoWorse(l, End(r).nodes[w].log)
    ensures Going(cfg, r') && Continues(cfg, r, r') && Polling(cfg, End(r').nodes[v], v, l, t, votes + ws)
    ensures forall w :: w in ws ==> End(r').nodes[w].currentTerm == t && End(r').nodes[w].log == End(r).nodes[w].log
    ensures forall u :: u in cfg.nodes && u != v && u !in ws ==> End(r').nodes[u] == End(r).nodes[u]
    decreases ws
  {
    if ws == {} {
      r' := r;
      assert votes + ws == votes;
    } else {
      var w :| w in ws;
      var r1 := AskOne(cfg, r, v, l, t, votes, w);
      r' := AskAll(cfg, r1, v, l, t, votes + {w}, ws - {w});
      Onward(cfg, r, r1, r');
      assert votes + {w} + (ws - {w}) == votes + ws;
    }
  }

  /** The leader of term `t`, fresh from the election it won with the log `l`. */
  ghost predicate NewLeader(cfg: Config, n: Node, v: NodeID, l: Log, t: nat) {
    && n.role == Leader && n.currentTerm == t && n.commitIndex == n.lastApplied == 0
    && n.log == Append(l, LogEntry(LastIndex(l) + 1, t, NOOP))
    && n.leader == Some(NewLeaderState(cfg.Peers(v), LastIndex(l)))
  }

  lemma Win(cfg: Config, r: Run, v: NodeID, l: Log, t: nat) returns (r': Run)
    requires Going(cfg, r) && v in cfg.nodes && |cfg.nodes| >= 2 && Polling(cfg, End(r).nodes[v], v, l, t, cfg.Peers(v))
    ensures Going(cfg, r') && Continues(cfg, r, r') && OthersSame(cfg, End(r), End(r'), v)
    ensures NewLeader(cfg, End(r').nodes[v], v, l, t)
  {
    assert |cfg.Peers(v)| == |cfg.nodes| - 1;
    r' := Go(cfg, r, v, EndElection);
  }

  /** All nodes are in term `t` with the logs they had, but that the leader `v` has added its no-op. */
  ghost predicate ElectedAfter(cfg: Config, r: Run, r': Run, v: NodeID, t: nat) {
    && Going(cfg, r) && Going(cfg, r') && Continues(cfg, r, r') && v in cfg.nodes
    && NewLeader(cfg, End(r').nodes[v], v, End(r).nodes[v].log, t)
    && (forall w :: w in cfg.Peers(v) ==> End(r').nodes[w].currentTerm == t && End(r').nodes[w].log == End(r).nodes[w].log)
    && (forall w :: w in cfg.nodes ==> End(r).nodes[w].currentTerm < t)
  }

  /** Node `v` starts over and stands for term `t + 1`. */
  lemma Prepare(cfg: Config, r: Run, v: NodeID, t: nat) returns (r': Run)
    requires Going(cfg, r) && v in cfg.nodes && End(r).nodes[v].currentTerm <= t
    ensures Going(cfg, r') && Continues(cfg, r, r') && OthersSame(cfg, End(r), End(r'), v)
    ensures Polling(cfg, End(r').nodes[v], v, End(r).nodes[v].log, t + 1, {})
    ensures VoteReq(Ballot(v, End(r).nodes[v].log, t + 1)) in End(r').msgs
  {
    var l := End(r).nodes[v].log;
    var r1 := StartOver(cfg, r, v);
    var r2 := StandUntil(cfg, r1, v, l, End(r).nodes[v].currentTerm, t);
    r' := Stand(cfg, r2, v, l, t);
    Onward(cfg, r, r1, r2);
    Onward(cfg, r, r2, r');
  }

  lemma ElectFrom(cfg: Config, r: Run, v: NodeID, t: nat) returns (r': Run)
    requires Going(cfg, r) && v in cfg.nodes && |cfg.nodes| >= 2
    requires forall w :: w in cfg.nodes ==> End(r).nodes[w].currentTerm <= t && NoWorse(End(r).nodes[v].log, End(r).nodes[w].log)
    ensures ElectedAfter(cfg, r, r', v, t + 1)
  {
    hide IsRun, Continues, NoWorse, Polling, NewLeader;
    var r1 := Prepare(cfg, r, v, t);
    r' := Campaigned(cfg, r1, v, End(r).nodes[v].log, t + 1);
    Onward(cfg, r, r1, r');
  }

  /** Everybody votes for the candidate, and it wins. */
  lemma Campaigned(cfg: Config, r: Run, v: NodeID, l: Log, t: nat) returns (r': Run)
    requires Going(cfg, r) && v in cfg.nodes && |cfg.nodes| >= 2 && Polling(cfg, End(r).nodes[v], v, l, t, {})
    requires VoteReq(Ballot(v, l, t)) in End(r).msgs
    requires forall w :: w in cfg.Peers(v) ==> End(r).nodes[w].currentTerm < t && NoWorse(l, End(r).nodes[w].log)
    ensures Going(cfg, r') && Continues(cfg, r, r') && NewLeader(cfg, End(r').nodes[v], v, l, t)
    ensures forall w :: w in cfg.Peers(v) ==> End(r').nodes[w].currentTerm == t && End(r').nodes[w].log == End(r).nodes[w].log
  {
    hide IsRun, Continues, NoWorse, Polling, NewLeader;
    var r1 := AskAll(cfg, r, v, l, t, {}, cfg.Peers(v));
    assert {} + cfg.Peers(v) == cfg.Peers(v);
    r' := Win(cfg, r1, v, l, t);
    Onward(cfg, r, r1, r');
  }

  lemma {:induction false} AlwaysGoing(cfg: Config, r: Run, i: nat)
    requires IsRun(cfg, r) && i < |r.states|
    ensures r.states[i].nodes.Keys == cfg.nodes
  {
    if i > 0 {
      AlwaysGoing(cfg, r, i - 1);
      assert StepAt(cfg, r, i - 1);
    }
  }

  /** Every run goes on to one in which a node with a best log leads a term later than any before, and all
      nodes are in it. */
  lemma AlwaysElectable(cfg: Config, r: Run) returns (r': Run, v: NodeID, t: nat)
    requires IsRun(cfg, r) && |cfg.nodes| >= 2
    ensures ElectedAfter(cfg, r, r', v, t)
  {
    AlwaysGoing(cfg, r, |r.labels|);
    v := BestExists(End(r).nodes, cfg.nodes);
    t := LaterTermExists(End(r).nodes, cfg.nodes);
    r' := ElectFrom(cfg, r, v, t);
    t := t + 1;
  }
}
