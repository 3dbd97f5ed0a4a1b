/** Building runs move by move, for the statements that some state can be reached. */
module Scenario {
  import opened Types
  import opened LogModel
  import opened NodeModel
  import opened Cluster
  import Splice

  ghost predicate EndsIn(cfg: Config, r: Run, c: State) {
    IsRun(cfg, r) && r.states[|r.labels|] == c
  }

  ghost predicate Reachable(cfg: Config, c: State) {
    exists r :: EndsIn(cfg, r, c)
  }

  /** Reached, with every node of the cluster in place. */
  ghost predicate At(cfg: Config, c: State) {
    cfg.Valid() && Reachable(cfg, c) && c.nodes.Keys == cfg.nodes
  }

  lemma Start(cfg: Config) returns (c: State)
    requires cfg.Valid()
    ensures At(cfg, c) && forall v :: v in cfg.nodes ==> c.nodes[v] == FRESH
  {
    c := State(Filled(cfg.nodes, FRESH), {});
    assert EndsIn(cfg, Run([c], []), c);
  }

  lemma StepReachable(cfg: Config, c: State, a: Label)
    requires Reachable(cfg, c) && Enabled(cfg, c, a.node, a.event)
    ensures Reachable(cfg, Next(cfg, c, a))
  {
    var r :| EndsIn(cfg, r, c);
    var r' := OneMore(cfg, r, c, a);
  }

  /** A run with one more step. */
  lemma OneMore(cfg: Config, r: Run, c: State, a: Label) returns (r': Run)
    requires EndsIn(cfg, r, c) && Enabled(cfg, c, a.node, a.event)
    ensures EndsIn(cfg, r', Next(cfg, c, a)) && r' == Run(r.states + [Next(cfg, c, a)], r.labels + [a])
  {
    r' := Run(r.states + [Next(cfg, c, a)], r.labels + [a]);
    forall i | 0 <= i < |r'.labels| ensures StepAt(cfg, r', i) {
      if i < |r.labels| { assert StepAt(cfg, r, i); }
    }
  }

  lemma Move(cfg: Config, c: State, v: NodeID, ev: Event, n': Node, out: set<Message>) returns (c': State)
    requires At(cfg, c) && Enabled(cfg, c, v, ev)
    requires NodeStep(cfg, v, c.nodes[v], ev) == (n', out)
    ensures At(cfg, c') && c' == State(c.nodes[v := n'], c.msgs + out)
  {
    StepReachable(cfg, c, Label(v, ev));
    c' := Next(cfg, c, Label(v, ev));
  }

  // ---------------------------------------------------------------------
  // Nodes in the course of an election
  // ---------------------------------------------------------------------

  function Entry(i: nat, t: nat): LogEntry {
    LogEntry(i, t, NOOP)
  }

  /** A candidate that holds `votes`. */
  ghost function Campaigning(peers: set<NodeID>, v: NodeID, t: nat, l: Log, led: NodeID, votes: set<NodeID>): Node {
    FRESH.(role := Candidate, currentTerm := t, votedFor := v, meta := Meta(t, v), log := l, leaderID := led,
           election := Some(Election(t, peers - votes, votes)))
  }

  ghost function Leading(v: NodeID, t: nat, l: Log, ls: LeaderState, commit: nat): Node {
    FRESH.(role := Leader, currentTerm := t, votedFor := v, meta := Meta(t, v), log := l, leaderID := v,
           leader := Some(ls), commitIndex := commit)
  }

  /** A follower with an empty log that last voted for `v`. */
  ghost function Voter(t: nat, v: NodeID): Node {
    FRESH.(currentTerm := t, votedFor := v, meta := Meta(t, v))
  }

  /** A follower with log `l`. */
  ghost function Following(t: nat, vote: NodeID, l: Log, led: NodeID): Node {
    FRESH.(currentTerm := t, votedFor := vote, meta := Meta(t, vote), log := l, leaderID := led)
  }

  /** All nodes of `vs` are in the state `n`. */
  ghost predicate AllAre(c: State, vs: set<NodeID>, n: Node) {
    forall v :: v in vs ==> v in c.nodes && c.nodes[v] == n
  }

  lemma EmptyReads()
    ensures FromSeq([]) == EMPTY && LastIndex(EMPTY) == 0 && LastTerm(EMPTY) == 0
  {
    FromSeqReads([]);
    assert FromSeq([]).entries == map[];
  }

  /** A follower times out and stands for the next term. */
  lemma StandMove(cfg: Config, c: State, v: NodeID, t: nat, vote: NodeID, l: Log, led: NodeID) returns (c': State)
    requires At(cfg, c) && v in cfg.nodes && c.nodes[v] == Following(t, vote, l, led)
    ensures At(cfg, c') && c'.nodes == c.nodes[v := Campaigning(cfg.Peers(v), v, t + 1, l, led, {})]
    ensures c'.msgs == c.msgs + {VoteReq(VoteRequest(t + 1, v, LastIndex(l), LastTerm(l)))}
  {
    assert cfg.Peers(v) - {} == cfg.Peers(v);
    c' := Move(cfg, c, v, Timeout, Campaigning(cfg.Peers(v), v, t + 1, l, led, {}),
               {VoteReq(VoteRequest(t + 1, v, LastIndex(l), LastTerm(l)))});
  }

  /** A follower of an earlier term whose log is no better grants its vote. */
  lemma VoteMove(cfg: Config, c: State, w: NodeID, req: VoteRequest, l: Log, led: NodeID) returns (c': State)
    requires At(cfg, c) && w in cfg.nodes && VoteReq(req) in c.msgs && req.candidateId != w && UpToDate(req, l)
    requires c.nodes[w] == Following(c.nodes[w].currentTerm, c.nodes[w].votedFor, l, led)
    requires c.nodes[w].currentTerm < req.term
    ensures At(cfg, c') && c'.nodes == c.nodes[w := Following(req.term, req.candidateId, l, led)]
    ensures c'.msgs == c.msgs + {VoteResp(req, VoteResponse(req.term, true, w))}
  {
    c' := Move(cfg, c, w, RecvVote(req), Following(req.term, req.candidateId, l, led),
               {VoteResp(req, VoteResponse(req.term, true, w))});
  }

  lemma CountMove(cfg: Config, c: State, v: NodeID, t: nat, l: Log, led: NodeID, votes: set<NodeID>, req: VoteRequest, w: NodeID)
    returns (c': State)
    requires At(cfg, c) && v in cfg.nodes && c.nodes[v] == Campaigning(cfg.Peers(v), v, t, l, led, votes)
    requires w in cfg.Peers(v) - votes && req.candidateId == v && req.term == t
    requires VoteResp(req, VoteResponse(t, true, w)) in c.msgs
    ensures At(cfg, c') && c' == State(c.nodes[v := Campaigning(cfg.Peers(v), v, t, l, led, votes + {w})], c.msgs)
  {
    assert cfg.Peers(v) - votes - {w} == cfg.Peers(v) - (votes + {w});
    c' := Move(cfg, c, v, RecvVoteReply(req, VoteResponse(t, true, w)),
               Campaigning(cfg.Peers(v), v, t, l, led, votes + {w}), {});
    assert c.msgs + {} == c.msgs;
  }

  /** A node that has nothing in its log and has not reached term `t`. */
  ghost predicate MayVote(n: Node, t: nat) {
    n == Voter(n.currentTerm, n.votedFor) && n.currentTerm < t
  }

  lemma PollOne(cfg: Config, c: State, v: NodeID, t: nat, l: Log, led: NodeID, votes: set<NodeID>, w: NodeID)
    returns (c': State)
    requires At(cfg, c) && v in cfg.nodes && c.nodes[v] == Campaigning(cfg.Peers(v), v, t, l, led, votes)
    requires VoteReq(VoteRequest(t, v, LastIndex(l), LastTerm(l))) in c.msgs
    requires w in cfg.Peers(v) - votes && MayVote(c.nodes[w], t)
    ensures At(cfg, c') && c.msgs <= c'.msgs
    ensures c'.nodes == c.nodes[w := Voter(t, v)][v := Campaigning(cfg.Peers(v), v, t, l, led, votes + {w})]
  {
    EmptyReads();
    var req := VoteRequest(t, v, LastIndex(l), LastTerm(l));
    var c1 := VoteMove(cfg, c, w, req, EMPTY, NO_NODE);
    c' := CountMove(cfg, c1, v, t, l, led, votes, req, w);
  }

  /** The candidate collects the votes of `ws` one by one. */
  lemma {:induction false} Poll(cfg: Config, c: State, v: NodeID, t: nat, l: Log, led: NodeID, votes: set<NodeID>, ws: set<NodeID>)
    returns (c': State)
    requires At(cfg, c) && v in cfg.nodes && c.nodes[v] == Campaigning(cfg.Peers(v), v, t, l, led, votes)
    requires VoteReq(VoteRequest(t, v, LastIndex(l), LastTerm(l))) in c.msgs
    requires ws <= cfg.Peers(v) - votes && forall w :: w in ws ==> MayVote(c.nodes[w], t)
    ensures At(cfg, c') && c.msgs <= c'.msgs
    ensures c'.nodes[v] == Campaigning(cfg.Peers(v), v, t, l, led, votes + ws)
    ensures forall w :: w in ws ==> c'.nodes[w] == Voter(t, v)
    ensures forall u :: u in cfg.nodes && u != v && u !in ws ==> c'.nodes[u] == c.nodes[u]
    decreases ws
  {
    if ws == {} {
      c' := c;
      assert votes + ws == votes;
    } else {
      var w :| w in ws;
      var c1 := PollOne(cfg, c, v, t, l, led, votes, w);
      c' := Poll(cfg, c1, v, t, l, led, votes + {w}, ws - {w});
      assert votes + {w} + (ws - {w}) == votes + ws;
    }
  }

  lemma WinMove(cfg: Config, c: State, v: NodeID, t: nat, l: Log, led: NodeID, votes: set<NodeID>) returns (c': State)
    requires At(cfg, c) && v in cfg.nodes && c.nodes[v] == Campaigning(cfg.Peers(v), v, t, l, led, votes)
    requires votes != {} && 1 + |votes| >= ElectionQuorum(|cfg.Peers(v)|)
    ensures At(cfg, c') && c'.msgs == c.msgs
    ensures c'.nodes == c.nodes[v := Leading(v, t, Append(l, Entry(LastIndex(l) + 1, t)), NewLeaderState(cfg.Peers(v), LastIndex(l)), 0)]
  {
    c' := Move(cfg, c, v, EndElection,
               Leading(v, t, Append(l, Entry(LastIndex(l) + 1, t)), NewLeaderState(cfg.Peers(v), LastIndex(l)), 0), {});
  }

  /** The votes of `ws` and its own elect `v`. */
  ghost predicate Elects(cfg: Config, v: NodeID, ws: set<NodeID>) {
    v in cfg.nodes && ws <= cfg.Peers(v) && ws != {} && 1 + |ws| >= ElectionQuorum(|cfg.Peers(v)|)
  }

  /** A candidate is elected by `ws`, and the other nodes stay as they were. */
  lemma Elect(cfg: Config, c: State, v: NodeID, t: nat, l: Log, led: NodeID, ws: set<NodeID>) returns (c': State)
    requires At(cfg, c) && Elects(cfg, v, ws) && c.nodes[v] == Campaigning(cfg.Peers(v), v, t, l, led, {})
    requires VoteReq(VoteRequest(t, v, LastIndex(l), LastTerm(l))) in c.msgs
    requires forall w :: w in ws ==> MayVote(c.nodes[w], t)
    ensures At(cfg, c') && c.msgs <= c'.msgs
    ensures c'.nodes[v] == Leading(v, t, Append(l, Entry(LastIndex(l) + 1, t)), NewLeaderState(cfg.Peers(v), LastIndex(l)), 0)
    ensures forall w :: w in ws ==> c'.nodes[w] == Voter(t, v)
    ensures forall u :: u in cfg.nodes && u != v && u !in ws ==> c'.nodes[u] == c.nodes[u]
  {
    var c1 := Poll(cfg, c, v, t, l, led, {}, ws);
    assert {} + ws == ws;
    c' := WinMove(cfg, c1, v, t, l, led, ws);
  }

  lemma FirstEntry(t: nat)
    ensures Append(EMPTY, Entry(1, t)) == FromSeq([Entry(1, t)])
  {
    EmptyReads();
    FromSeqAppend([], Entry(1, t));
    assert [] + [Entry(1, t)] == [Entry(1, t)];
  }

  /** As `Elect`, for a candidate with nothing in its log. */
  lemma ElectFirst(cfg: Config, c: State, v: NodeID, t: nat, ws: set<NodeID>) returns (c': State)
    requires At(cfg, c) && Elects(cfg, v, ws) && c.nodes[v] == Campaigning(cfg.Peers(v), v, t, EMPTY, NO_NODE, {})
    requires VoteReq(VoteRequest(t, v, 0, 0)) in c.msgs
    requires forall w :: w in ws ==> MayVote(c.nodes[w], t)
    ensures At(cfg, c') && c.msgs <= c'.msgs
    ensures c'.nodes[v] == Leading(v, t, FromSeq([Entry(1, t)]), NewLeaderState(cfg.Peers(v), 0), 0)
    ensures forall w :: w in ws ==> c'.nodes[w] == Voter(t, v)
    ensures forall u :: u in cfg.nodes && u != v && u !in ws ==> c'.nodes[u] == c.nodes[u]
  {
    EmptyReads();
    FirstEntry(t);
    c' := Elect(cfg, c, v, t, EMPTY, NO_NODE, ws);
  }

  /** As `Elect`, for a candidate whose log is the sequence `xs`. */
  lemma ElectWith(cfg: Config, c: State, v: NodeID, t: nat, xs: seq<LogEntry>, led: NodeID, ws: set<NodeID>) returns (c': State)
    requires At(cfg, c) && Elects(cfg, v, ws) && c.nodes[v] == Campaigning(cfg.Peers(v), v, t, FromSeq(xs), led, {})
    requires VoteReq(VoteRequest(t, v, |xs|, LastTermOf(xs))) in c.msgs
    requires forall w :: w in ws ==> MayVote(c.nodes[w], t)
    ensures At(cfg, c') && c.msgs <= c'.msgs
    ensures c'.nodes[v] == Leading(v, t, FromSeq(xs + [Entry(|xs| + 1, t)]), NewLeaderState(cfg.Peers(v), |xs|), 0)
    ensures forall w :: w in ws ==> c'.nodes[w] == Voter(t, v)
    ensures forall u :: u in cfg.nodes && u != v && u !in ws ==> c'.nodes[u] == c.nodes[u]
  {
    FromSeqReads(xs);
    FromSeqAppend(xs, Entry(|xs| + 1, t));
    c' := Elect(cfg, c, v, t, FromSeq(xs), led, ws);
  }

  // ---------------------------------------------------------------------
  // Replication
  // ---------------------------------------------------------------------

  /** A leader appends a command. */
  lemma ProposeMove(cfg: Config, c: State, v: NodeID, t: nat, xs: seq<LogEntry>, ls: LeaderState, cmd: Command) returns (c': State)
    requires At(cfg, c) && v in cfg.nodes && c.nodes[v] == Leading(v, t, FromSeq(xs), ls, 0)
    ensures At(cfg, c')
    ensures c' == State(c.nodes[v := Leading(v, t, FromSeq(xs + [LogEntry(|xs| + 1, t, cmd)]), ls, 0)], c.msgs)
  {
    FromSeqReads(xs);
    FromSeqAppend(xs, LogEntry(|xs| + 1, t, cmd));
    c' := Move(cfg, c, v, ClientCommand(cmd), Leading(v, t, FromSeq(xs + [LogEntry(|xs| + 1, t, cmd)]), ls, 0), {});
    assert c.msgs + {} == c.msgs;
  }

  /** What a leader sends a peer: everything from `nextIndex` on. */
  lemma RequestFor(v: NodeID, p: NodeID, t: nat, xs: seq<LogEntry>, ls: LeaderState, commit: nat) returns (req: AppendRequest)
    requires 1 <= Lookup(ls.nextIndex, p) <= |xs| + 1
    ensures var prev := Lookup(ls.nextIndex, p) - 1;
            req == AppendRequest(t, v, prev, TermOf(xs, prev), xs[prev..], commit)
    ensures MakeAppend(v, Leading(v, t, FromSeq(xs), ls, commit), p) == Some(req)
  {
    var next := Lookup(ls.nextIndex, p);
    FromSeqReads(xs);
    FromSeqRange(xs, next, |xs|);
    assert xs[next - 1..] == xs[next - 1..|xs|];
    req := AppendRequest(t, v, next - 1, TermOf(xs, next - 1), xs[next - 1..], commit);
  }

  lemma SendMove(cfg: Config, c: State, v: NodeID, p: NodeID, req: AppendRequest) returns (c': State)
    requires At(cfg, c) && v in cfg.nodes && p in cfg.Peers(v) && MakeAppend(v, c.nodes[v], p) == Some(req)
    ensures At(cfg, c') && c' == State(c.nodes, c.msgs + {AppendReq(p, req)})
  {
    c' := Move(cfg, c, v, SendAppend(p), c.nodes[v], {AppendReq(p, req)});
    assert c.nodes[v := c.nodes[v]] == c.nodes;
  }

  lemma AppendMove(cfg: Config, c: State, v: NodeID, req: AppendRequest, n': Node, resp: AppendResponse) returns (c': State)
    requires At(cfg, c) && v in cfg.nodes && AppendReq(v, req) in c.msgs
    requires HandleAppend(cfg.variant, v, c.nodes[v], req) == (n', resp)
    ensures At(cfg, c') && c' == State(c.nodes[v := n'], c.msgs + {AppendResp(req, resp)})
  {
    c' := Move(cfg, c, v, RecvAppend(req), n', {AppendResp(req, resp)});
  }

  /** The run ends with `v` handling `req`. */
  ghost predicate AcceptsLast(cfg: Config, r: Run, v: NodeID, req: AppendRequest) {
    && IsRun(cfg, r) && |r.labels| > 0 && r.labels[|r.labels| - 1] == Label(v, RecvAppend(req))
    && r.states[|r.labels| - 1].nodes.Keys == r.states[|r.labels|].nodes.Keys == cfg.nodes && v in cfg.nodes
  }

  lemma AcceptRun(cfg: Config, c: State, v: NodeID, req: AppendRequest) returns (r: Run)
    requires At(cfg, c) && v in cfg.nodes && AppendReq(v, req) in c.msgs
    ensures AcceptsLast(cfg, r, v, req) && r.states[|r.labels| - 1] == c
    ensures r.states[|r.labels|].nodes == c.nodes[v := HandleAppend(cfg.variant, v, c.nodes[v], req).0]
  {
    var r0 :| EndsIn(cfg, r0, c);
    r := OneMore(cfg, r0, c, Label(v, RecvAppend(req)));
  }

  lemma ReplyMove(cfg: Config, c: State, v: NodeID, req: AppendRequest, resp: AppendResponse, n': Node) returns (c': State)
    requires At(cfg, c) && v in cfg.nodes && AppendResp(req, resp) in c.msgs && req.leaderId == v
    requires HandleAppendReply(cfg.variant, c.nodes[v], req, resp) == n'
    ensures At(cfg, c') && c' == State(c.nodes[v := n'], c.msgs)
  {
    c' := Move(cfg, c, v, RecvAppendReply(req, resp), n', {});
    assert c.msgs + {} == c.msgs;
  }

  lemma ApplyMove(cfg: Config, c: State, v: NodeID) returns (c': State)
    requires At(cfg, c) && v in cfg.nodes
    ensures At(cfg, c') && c' == State(c.nodes[v := ApplyCommitted(c.nodes[v])], c.msgs)
  {
    c' := Move(cfg, c, v, Apply, ApplyCommitted(c.nodes[v]), {});
    assert c.msgs + {} == c.msgs;
  }

  lemma CrashMove(cfg: Config, c: State, v: NodeID) returns (c': State)
    requires At(cfg, c) && v in cfg.nodes
    ensures At(cfg, c') && c' == State(c.nodes[v := Restart(c.nodes[v], cfg.persistentStore)], c.msgs)
  {
    c' := Move(cfg, c, v, Crash, Restart(c.nodes[v], cfg.persistentStore), {});
    assert c.msgs + {} == c.msgs;
  }

  // ---------------------------------------------------------------------
  // Replication to many
  // ---------------------------------------------------------------------

  /** A follower with nothing in its log, in no later term than `t`. */
  ghost predicate Blank(n: Node, t: nat) {
    n == Following(n.currentTerm, n.votedFor, EMPTY, n.leaderID) && n.currentTerm <= t
  }

  /** The same follower after it took the log `xs` from `v`. */
  ghost function Took(n: Node, t: nat, xs: seq<LogEntry>, v: NodeID): Node {
    Following(t, if n.currentTerm < t then NO_NODE else n.votedFor, FromSeq(xs), v)
  }

  lemma TakesFromStart(variant: Variant, w: NodeID, n: Node, req: AppendRequest, xs: seq<LogEntry>)
    requires Blank(n, req.term) && req.prevLogIndex == 0 && req.leaderCommit == 0
    requires NodeModel.Splice(variant.rereadTerm, n.log, 0, req.entries) == FromSeq(xs)
    ensures HandleAppend(variant, w, n, req) ==
            (Took(n, req.term, xs, req.leaderId), AppendResponse(req.term, true, w, LastIndex(FromSeq(xs)), 0, 0))
  {
  }

  lemma TakesAll(variant: Variant, w: NodeID, n: Node, req: AppendRequest)
    requires Blank(n, req.term) && req.prevLogIndex == 0 && Indexed(req.entries, 1) && req.leaderCommit == 0
    ensures HandleAppend(variant, w, n, req) ==
            (Took(n, req.term, req.entries, req.leaderId), AppendResponse(req.term, true, w, |req.entries|, 0, 0))
  {
    EmptyReads();
    Splice.AppendsAtEnd(variant.rereadTerm, [], req.entries);
    assert [] + req.entries == req.entries;
    FromSeqReads(req.entries);
    TakesFromStart(variant, w, n, req, req.entries);
  }

  ghost predicate AckedBy(cfg: Config, c: State, v: NodeID, t: nat, w: NodeID, m: nat, req: AppendRequest, rt: nat) {
    && AppendResp(req, AppendResponse(rt, true, w, m, 0, 0)) in c.msgs && req.leaderId == v && rt <= t
    && (cfg.variant.checkReplyTerm ==> req.term == t)
  }

  /** On its way to `v` is a reply of `w` that acknowledges `m` and that `v`, leading term `t`, will use. */
  ghost predicate Acked(cfg: Config, c: State, v: NodeID, t: nat, w: NodeID, m: nat) {
    exists req, rt :: AckedBy(cfg, c, v, t, w, m, req, rt)
  }

  ghost predicate AllAcked(cfg: Config, c: State, v: NodeID, t: nat, ws: set<NodeID>, m: nat) {
    forall w :: w in ws ==> Acked(cfg, c, v, t, w, m)
  }

  lemma AckedStill(cfg: Config, c: State, c': State, v: NodeID, t: nat, ws: set<NodeID>, m: nat)
    requires AllAcked(cfg, c, v, t, ws, m) && c.msgs <= c'.msgs
    ensures AllAcked(cfg, c', v, t, ws, m)
  {
    forall w | w in ws ensures Acked(cfg, c', v, t, w, m) {
      var req, rt :| AckedBy(cfg, c, v, t, w, m, req, rt);
      assert AckedBy(cfg, c', v, t, w, m, req, rt);
    }
  }

  lemma SpreadOne(cfg: Config, c: State, v: NodeID, t: nat, xs: seq<LogEntry>, ls: LeaderState, w: NodeID) returns (c': State)
    requires At(cfg, c) && v in cfg.nodes && w in cfg.Peers(v) && c.nodes[v] == Leading(v, t, FromSeq(xs), ls, 0)
    requires Blank(c.nodes[w], t) && Lookup(ls.nextIndex, w) == 1 && Indexed(xs, 1)
    ensures At(cfg, c') && c.msgs <= c'.msgs && c'.nodes == c.nodes[w := Took(c.nodes[w], t, xs, v)]
    ensures Acked(cfg, c', v, t, w, |xs|)
  {
    var req := RequestFor(v, w, t, xs, ls, 0);
    assert xs[0..] == xs;
    var c1 := SendMove(cfg, c, v, w, req);
    TakesAll(cfg.variant, w, c.nodes[w], req);
    c' := AppendMove(cfg, c1, w, req, Took(c.nodes[w], t, xs, v), AppendResponse(t, true, w, |xs|, 0, 0));
    assert AckedBy(cfg, c', v, t, w, |xs|, req, t);
  }

  /** The leader's whole log goes to each of `ws`, and each acknowledges it. */
  lemma {:induction false} Spread(cfg: Config, c: State, v: NodeID, t: nat, xs: seq<LogEntry>, ls: LeaderState, ws: set<NodeID>)
    returns (c': State)
    requires At(cfg, c) && v in cfg.nodes && ws <= cfg.Peers(v) && c.nodes[v] == Leading(v, t, FromSeq(xs), ls, 0)
    requires forall w :: w in ws ==> Blank(c.nodes[w], t) && Lookup(ls.nextIndex, w) == 1
    requires Indexed(xs, 1)
    ensures At(cfg, c') && c.msgs <= c'.msgs
    ensures AllAcked(cfg, c', v, t, ws, |xs|)
    ensures forall w :: w in ws ==> c'.nodes[w] == Took(c.nodes[w], t, xs, v)
    ensures forall u :: u in cfg.nodes && u !in ws ==> c'.nodes[u] == c.nodes[u]
    decreases ws
  {
    if ws == {} {
      c' := c;
    } else {
      var w :| w in ws;
      var c1 := SpreadOne(cfg, c, v, t, xs, ls, w);
      c' := Spread(cfg, c1, v, t, xs, ls, ws - {w});
      AckedStill(cfg, c1, c', v, t, {w}, |xs|);
      assert forall u :: u in ws ==> u in ws - {w} || u in {w};
    }
  }

  /** Maps of a leader that has counted `m` for each of `counted` and nothing for the other peers, whose
      next indices are still those of `next`. */
  ghost predicate Matched(ls: LeaderState, peers: set<NodeID>, counted: set<NodeID>, m: nat, next: map<NodeID, nat>) {
    && ls.matchIndex.Keys == peers && ls.nextIndex.Keys == peers && counted <= peers
    && (forall p :: p in peers ==> ls.matchIndex[p] == if p in counted then m else 0)
    && (forall p :: p in peers ==> ls.nextIndex[p] == if p in counted then m + 1 else Lookup(next, p))
  }

  /** What such a leader has committed of a log of `m` entries that ends in its own term. */
  ghost function CommitOf(peers: set<NodeID>, counted: set<NodeID>, m: nat): nat {
    if 1 + |counted| >= CommitMajority(|peers|) then m else 0
  }

  lemma {:induction false} ScanCounted(ls: LeaderState, peers: set<NodeID>, counted: set<NodeID>, m: nat, next: map<NodeID, nat>, i: nat, t: nat, l: Log)
    requires Matched(ls, peers, counted, m, next) && i <= m && 1 + |counted| < CommitMajority(|peers|)
    ensures CommitScan(ls.matchIndex, 0, i, t, l) == 0
    decreases i
  {
    if i > 0 {
      assert Holders(ls.matchIndex, i) == counted && |ls.matchIndex| == |ls.matchIndex.Keys|;
      ScanCounted(ls, peers, counted, m, next, i - 1, t, l);
    }
  }

  /** The scan of such a leader finds the end of its log exactly when that is newly committed. */
  lemma ScanCountedIs(ls: LeaderState, peers: set<NodeID>, counted: set<NodeID>, next: map<NodeID, nat>, t: nat, xs: seq<LogEntry>, commit: nat)
    requires Matched(ls, peers, counted, |xs|, next) && xs != [] && LastTermOf(xs) == t
    requires commit == 0 || commit == |xs| == CommitOf(peers, counted, |xs|)
    ensures var found := CommitScan(ls.matchIndex, commit, |xs|, t, FromSeq(xs));
            (if found > 0 then found else commit) == CommitOf(peers, counted, |xs|)
  {
    FromSeqReads(xs);
    if 1 + |counted| < CommitMajority(|peers|) {
      ScanCounted(ls, peers, counted, |xs|, next, |xs|, t, FromSeq(xs));
    } else {
      assert Holders(ls.matchIndex, |xs|) == counted && |ls.matchIndex| == |ls.matchIndex.Keys|;
    }
  }

  lemma CommitOfGrows(peers: set<NodeID>, counted: set<NodeID>, w: NodeID, m: nat)
    ensures CommitOf(peers, counted, m) == 0 || CommitOf(peers, counted, m) == m == CommitOf(peers, counted + {w}, m)
  {
    if w in counted { assert counted + {w} == counted; }
  }

  /** What a used reply does to a leader. */
  lemma ReplyIs(variant: Variant, v: NodeID, t: nat, l: Log, ls: LeaderState, commit: nat, req: AppendRequest, rt: nat, w: NodeID, m: nat)
    requires rt <= t && (variant.checkReplyTerm ==> req.term == t) && Lookup(ls.matchIndex, w) <= m
    ensures var ls1 := LeaderState(ls.nextIndex[w := m + 1], ls.matchIndex[w := m]);
            var found := CommitScan(ls1.matchIndex, commit, LastIndex(l), t, l);
            HandleAppendReply(variant, Leading(v, t, l, ls, commit), req, AppendResponse(rt, true, w, m, 0, 0)) ==
            Leading(v, t, l, ls1, if found > 0 then found else commit)
  {
  }

  lemma ReplyCounts(variant: Variant, v: NodeID, t: nat, xs: seq<LogEntry>, ls: LeaderState, peers: set<NodeID>,
                    counted: set<NodeID>, next: map<NodeID, nat>, req: AppendRequest, rt: nat, w: NodeID) returns (ls': LeaderState)
    requires Matched(ls, peers, counted, |xs|, next) && w in peers && rt <= t && (variant.checkReplyTerm ==> req.term == t)
    requires xs != [] && LastTermOf(xs) == t
    ensures Matched(ls', peers, counted + {w}, |xs|, next)
    ensures HandleAppendReply(variant, Leading(v, t, FromSeq(xs), ls, CommitOf(peers, counted, |xs|)), req,
                              AppendResponse(rt, true, w, |xs|, 0, 0)) ==
            Leading(v, t, FromSeq(xs), ls', CommitOf(peers, counted + {w}, |xs|))
  {
    var m, commit := |xs|, CommitOf(peers, counted, |xs|);
    ls' := LeaderState(ls.nextIndex[w := m + 1], ls.matchIndex[w := m]);
    ReplyIs(variant, v, t, FromSeq(xs), ls, commit, req, rt, w, m);
    FromSeqReads(xs);
    CommitOfGrows(peers, counted, w, m);
    ScanCountedIs(ls', peers, counted + {w}, next, t, xs, commit);
  }

  lemma CountReply(cfg: Config, c: State, v: NodeID, t: nat, xs: seq<LogEntry>, ls: LeaderState, counted: set<NodeID>, next: map<NodeID, nat>, w: NodeID)
    returns (c': State, ls': LeaderState)
    requires At(cfg, c) && v in cfg.nodes && w in cfg.Peers(v) && Matched(ls, cfg.Peers(v), counted, |xs|, next)
    requires c.nodes[v] == Leading(v, t, FromSeq(xs), ls, CommitOf(cfg.Peers(v), counted, |xs|))
    requires xs != [] && LastTermOf(xs) == t && Acked(cfg, c, v, t, w, |xs|)
    ensures At(cfg, c') && c'.msgs == c.msgs && Matched(ls', cfg.Peers(v), counted + {w}, |xs|, next)
    ensures c'.nodes == c.nodes[v := Leading(v, t, FromSeq(xs), ls', CommitOf(cfg.Peers(v), counted + {w}, |xs|))]
  {
    var req, rt :| AckedBy(cfg, c, v, t, w, |xs|, req, rt);
    ls' := ReplyCounts(cfg.variant, v, t, xs, ls, cfg.Peers(v), counted, next, req, rt, w);
    c' := ReplyMove(cfg, c, v, req, AppendResponse(rt, true, w, |xs|, 0, 0),
                    Leading(v, t, FromSeq(xs), ls', CommitOf(cfg.Peers(v), counted + {w}, |xs|)));
  }

  /** The leader reads the acknowledgements of `ws`. */
  lemma {:induction false} CountReplies(cfg: Config, c: State, v: NodeID, t: nat, xs: seq<LogEntry>, ls: LeaderState,
                                        counted: set<NodeID>, next: map<NodeID, nat>, ws: set<NodeID>) returns (c': State, ls': LeaderState)
    requires At(cfg, c) && v in cfg.nodes && ws <= cfg.Peers(v) && Matched(ls, cfg.Peers(v), counted, |xs|, next)
    requires c.nodes[v] == Leading(v, t, FromSeq(xs), ls, CommitOf(cfg.Peers(v), counted, |xs|))
    requires xs != [] && LastTermOf(xs) == t && AllAcked(cfg, c, v, t, ws, |xs|)
    ensures At(cfg, c') && c'.msgs == c.msgs && Matched(ls', cfg.Peers(v), counted + ws, |xs|, next)
    ensures c'.nodes[v] == Leading(v, t, FromSeq(xs), ls', CommitOf(cfg.Peers(v), counted + ws, |xs|))
    ensures forall u :: u in cfg.nodes && u != v ==> c'.nodes[u] == c.nodes[u]
    decreases ws
  {
    hide Matched, CommitOf;
    if ws == {} {
      c', ls' := c, ls;
      assert counted + ws == counted;
    } else {
      var w :| w in ws;
      var c1, ls1 := CountReply(cfg, c, v, t, xs, ls, counted, next, w);
      AckedStill(cfg, c, c1, v, t, ws, |xs|);
      c', ls' := CountReplies(cfg, c1, v, t, xs, ls1, counted + {w}, next, ws - {w});
      assert counted + {w} + (ws - {w}) == counted + ws;
    }
  }

  /** A new leader has counted nobody. */
  lemma NewMapsMatched(peers: set<NodeID>, last: nat, m: nat)
    ensures var ls := NewLeaderState(peers, last); Matched(ls, peers, {}, m, ls.nextIndex)
  {
  }

  lemma NobodyCounted(peers: set<NodeID>, m: nat)
    requires peers != {}
    ensures CommitOf(peers, {}, m) == 0
  {
    var p :| p in peers;
    assert |peers| == |peers - {p}| + 1;
  }

  /** A leader that has counted nobody has its whole log taken by `ws`, a majority with itself, and commits it. */
  lemma ReplicateFrom(cfg: Config, c: State, v: NodeID, t: nat, xs: seq<LogEntry>, ls: LeaderState, ws: set<NodeID>)
    returns (c': State, ls': LeaderState)
    requires At(cfg, c) && v in cfg.nodes && ws <= cfg.Peers(v) && ws != {} && 1 + |ws| >= CommitMajority(|cfg.Peers(v)|)
    requires c.nodes[v] == Leading(v, t, FromSeq(xs), ls, 0) && Matched(ls, cfg.Peers(v), {}, |xs|, ls.nextIndex)
    requires xs != [] && LastTermOf(xs) == t && Indexed(xs, 1)
    requires forall w :: w in ws ==> Blank(c.nodes[w], t) && Lookup(ls.nextIndex, w) == 1
    ensures At(cfg, c') && c.msgs <= c'.msgs && Matched(ls', cfg.Peers(v), ws, |xs|, ls.nextIndex)
    ensures c'.nodes[v] == Leading(v, t, FromSeq(xs), ls', |xs|)
    ensures forall w :: w in ws ==> c'.nodes[w] == Took(c.nodes[w], t, xs, v)
    ensures forall u :: u in cfg.nodes && u != v && u !in ws ==> c'.nodes[u] == c.nodes[u]
  {
    hide Reachable;
    NobodyCounted(cfg.Peers(v), |xs|);
    var c1 := Spread(cfg, c, v, t, xs, ls, ws);
    c', ls' := CountReplies(cfg, c1, v, t, xs, ls, {}, ls.nextIndex, ws);
    assert {} + ws == ws;
  }

  ghost function NewMaps(cfg: Config, v: NodeID, last: nat): LeaderState {
    NewLeaderState(cfg.Peers(v), last)
  }

  /** As `ReplicateFrom`, for a leader elected with an empty log. */
  lemma Replicate(cfg: Config, c: State, v: NodeID, t: nat, xs: seq<LogEntry>, ws: set<NodeID>) returns (c': State, ls: LeaderState)
    requires At(cfg, c) && v in cfg.nodes && ws <= cfg.Peers(v) && ws != {} && 1 + |ws| >= CommitMajority(|cfg.Peers(v)|)
    requires c.nodes[v] == Leading(v, t, FromSeq(xs), NewMaps(cfg, v, 0), 0)
    requires xs != [] && LastTermOf(xs) == t && Indexed(xs, 1) && forall w :: w in ws ==> Blank(c.nodes[w], t)
    ensures At(cfg, c') && c.msgs <= c'.msgs && Matched(ls, cfg.Peers(v), ws, |xs|, NewMaps(cfg, v, 0).nextIndex)
    ensures c'.nodes[v] == Leading(v, t, FromSeq(xs), ls, |xs|)
    ensures forall w :: w in ws ==> c'.nodes[w] == Took(c.nodes[w], t, xs, v)
    ensures forall u :: u in cfg.nodes && u != v && u !in ws ==> c'.nodes[u] == c.nodes[u]
  {
    hide Reachable;
    NewMapsMatched(cfg.Peers(v), 0, |xs|);
    c', ls := ReplicateFrom(cfg, c, v, t, xs, NewMaps(cfg, v, 0), ws);
  }

  // ---------------------------------------------------------------------
  // A leader that must first go back
  // ---------------------------------------------------------------------

  /** A follower with nothing in its log refuses a request that starts later. */
  lemma BlankRefuses(variant: Variant, w: NodeID, n: Node, req: AppendRequest)
    requires Blank(n, req.term) && req.prevLogIndex > 0
    ensures HandleAppend(variant, w, n, req) ==
            (Took(n, req.term, [], req.leaderId), AppendResponse(req.term, false, w, 0, 1, 0))
  {
    EmptyReads();
  }

  lemma RewindOne(cfg: Config, c: State, v: NodeID, t: nat, xs: seq<LogEntry>, ls: LeaderState, w: NodeID) returns (c': State)
    requires At(cfg, c) && v in cfg.nodes && w in cfg.Peers(v) && c.nodes[v] == Leading(v, t, FromSeq(xs), ls, 0)
    requires Blank(c.nodes[w], t) && 1 < Lookup(ls.nextIndex, w) <= |xs| + 1
    ensures At(cfg, c') && c.msgs <= c'.msgs && Blank(c'.nodes[w], t)
    ensures c'.nodes[v] == Leading(v, t, FromSeq(xs), ls.(nextIndex := ls.nextIndex[w := 1]), 0)
    ensures forall u :: u in cfg.nodes && u != v && u != w ==> c'.nodes[u] == c.nodes[u]
  {
    EmptyReads();
    var req := RequestFor(v, w, t, xs, ls, 0);
    var resp := AppendResponse(t, false, w, 0, 1, 0);
    var c1 := SendMove(cfg, c, v, w, req);
    BlankRefuses(cfg.variant, w, c.nodes[w], req);
    var c2 := AppendMove(cfg, c1, w, req, Took(c.nodes[w], t, [], v), resp);
    c' := ReplyMove(cfg, c2, v, req, resp, Leading(v, t, FromSeq(xs), ls.(nextIndex := ls.nextIndex[w := 1]), 0));
  }

  /** The followers of `ws` send the leader back to the start of its log. */
  lemma {:induction false} Rewind(cfg: Config, c: State, v: NodeID, t: nat, xs: seq<LogEntry>, ls: LeaderState, ws: set<NodeID>)
    returns (c': State, ls': LeaderState)
    requires At(cfg, c) && v in cfg.nodes && ws <= cfg.Peers(v) && c.nodes[v] == Leading(v, t, FromSeq(xs), ls, 0)
    requires forall w :: w in ws ==> Blank(c.nodes[w], t) && 1 < Lookup(ls.nextIndex, w) <= |xs| + 1
    ensures At(cfg, c') && c.msgs <= c'.msgs && c'.nodes[v] == Leading(v, t, FromSeq(xs), ls', 0)
    ensures ls'.matchIndex == ls.matchIndex && ls'.nextIndex.Keys == ls.nextIndex.Keys + ws
    ensures forall w :: w in ws ==> Blank(c'.nodes[w], t) && Lookup(ls'.nextIndex, w) == 1
    ensures forall p :: p !in ws ==> Lookup(ls'.nextIndex, p) == Lookup(ls.nextIndex, p)
    ensures forall u :: u in cfg.nodes && u != v && u !in ws ==> c'.nodes[u] == c.nodes[u]
    decreases ws
  {
    hide Reachable;
    if ws == {} {
      c', ls' := c, ls;
    } else {
      var w :| w in ws;
      var c1 := RewindOne(cfg, c, v, t, xs, ls, w);
      var ls1 := ls.(nextIndex := ls.nextIndex[w := 1]);
      c', ls' := Rewind(cfg, c1, v, t, xs, ls1, ws - {w});
    }
  }

  lemma RewoundMatched(ls: LeaderState, peers: set<NodeID>, m: nat, last: nat)
    requires ls.matchIndex == NewLeaderState(peers, last).matchIndex && ls.nextIndex.Keys == peers
    ensures Matched(ls, peers, {}, m, ls.nextIndex)
  {
  }

  /** As `Replicate`, for a leader elected with the first `last` entries of its log. */
  lemma ReplicateBack(cfg: Config, c: State, v: NodeID, t: nat, xs: seq<LogEntry>, last: nat, ws: set<NodeID>)
    returns (c': State, ls: LeaderState)
    requires At(cfg, c) && v in cfg.nodes && ws <= cfg.Peers(v) && ws != {} && 1 + |ws| >= CommitMajority(|cfg.Peers(v)|)
    requires c.nodes[v] == Leading(v, t, FromSeq(xs), NewMaps(cfg, v, last), 0) && 1 <= last <= |xs|
    requires xs != [] && LastTermOf(xs) == t && Indexed(xs, 1) && forall w :: w in ws ==> Blank(c.nodes[w], t)
    ensures At(cfg, c') && c'.nodes[v] == Leading(v, t, FromSeq(xs), ls, |xs|)
    ensures forall u :: u in cfg.nodes && u != v && u !in ws ==> c'.nodes[u] == c.nodes[u]
  {
    hide Reachable, Matched;
    var c1, ls1 := Rewind(cfg, c, v, t, xs, NewMaps(cfg, v, last), ws);
    assert cfg.Peers(v) + ws == cfg.Peers(v);
    RewoundMatched(ls1, cfg.Peers(v), |xs|, last);
    c', ls := ReplicateFrom(cfg, c1, v, t, xs, ls1, ws);
  }
}
