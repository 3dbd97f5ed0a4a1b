/** No run is stuck: with the entry loop that reads the term again, at every size from two nodes up, any
    command can still be committed and applied, whatever has happened before. */
module CatchingUp {
  import opened Types
  import opened LogModel
  import opened NodeModel
  import opened Cluster
  import opened Handlers
  import opened Recovery
  import opened Backtracking
  import CommitRule
  import LogSafety
  import LogShapes
  import Replay
  import Splice

  // ---------------------------------------------------------------------
  // One exchange with a follower
  // ---------------------------------------------------------------------

  /** A leader of term `t` with the log `xs`, nothing applied since it started, and maps for its peers. */
  ghost predicate LeadsWith(cfg: Config, n: Node, v: NodeID, xs: Entries, t: nat) {
    && n.role == Leader && n.currentTerm == t && n.log == FromSeq(xs) && n.lastApplied == 0 && n.commitIndex <= |xs|
    && n.leader.Some? && n.leader.value.nextIndex.Keys == n.leader.value.matchIndex.Keys == cfg.Peers(v)
  }

  ghost function MatchOf(n: Node, p: NodeID): nat {
    if n.leader.Some? then Lookup(n.leader.value.matchIndex, p) else 0
  }

  ghost function NextOf(n: Node, p: NodeID): nat {
    if n.leader.Some? then Lookup(n.leader.value.nextIndex, p) else 0
  }

  ghost predicate AllCaughtUp(cfg: Config, n: Node, v: NodeID, m: nat) {
    forall p :: p in cfg.Peers(v) ==> MatchOf(n, p) >= m
  }

  /** A follower of the same term with a log in shape. */
  ghost predicate FollowsWith(n: Node, t: nat) {
    n.currentTerm == t && Plain(n.log) && Splice.PositiveTerms(Seq(n.log))
  }

  /** A log of term `t` that a leader of `t` has written. */
  ghost predicate OwnLog(xs: Entries, t: nat) {
    xs != [] && LastTermOf(xs) == t && Indexed(xs, 1)
  }

  /** The two nodes after the three steps of an exchange are those of `Backtracking.Exchange`. */
  lemma ThreeSteps(cfg: Config, r: Run, v: NodeID, w: NodeID) returns (r': Run)
    requires Going(cfg, r) && v in cfg.nodes && w in cfg.Peers(v) && MakeAppend(v, End(r).nodes[v], w).Some?
    ensures Going(cfg, r') && Continues(cfg, r, r')
    ensures var x := Exchange(cfg.variant, v, End(r).nodes[v], w, End(r).nodes[w]);
            End(r').nodes[v] == x.0 && End(r').nodes[w] == x.1
    ensures forall u :: u in cfg.nodes && u != v && u != w ==> End(r').nodes[u] == End(r).nodes[u]
  {
    hide HandleAppend, HandleAppendReply, MakeAppend;
    var req := MakeAppend(v, End(r).nodes[v], w).value;
    var resp := HandleAppend(cfg.variant, w, End(r).nodes[w], req).1;
    var r1 := SendStep(cfg, r, v, w);
    var r2 := Go(cfg, r1, w, RecvAppend(req));
    r' := Go(cfg, r2, v, RecvAppendReply(req, resp));
    Onward(cfg, r, r1, r2);
    Onward(cfg, r, r2, r');
  }

  lemma SendStep(cfg: Config, r: Run, v: NodeID, w: NodeID) returns (r': Run)
    requires Going(cfg, r) && v in cfg.nodes && w in cfg.Peers(v) && MakeAppend(v, End(r).nodes[v], w).Some?
    ensures Going(cfg, r') && Continues(cfg, r, r') && MakeAppend(v, End(r).nodes[v], w).value.leaderId == v
    ensures End(r').nodes == End(r).nodes && AppendReq(w, MakeAppend(v, End(r).nodes[v], w).value) in End(r').msgs
  {
    r' := Go(cfg, r, v, SendAppend(w));
    assert End(r).nodes[v := End(r).nodes[v]] == End(r).nodes;
  }

  /** What an accepted exchange gives the leader: the follower is known to hold all of its log, and if all
      peers are, all of it is committed. */
  lemma AcceptedExchange(cfg: Config, v: NodeID, n: Node, w: NodeID, m: Node, xs: Entries, t: nat)
    requires cfg.variant.rereadTerm && w in cfg.Peers(v) && LeadsWith(cfg, n, v, xs, t) && OwnLog(xs, t) && FollowsWith(m, t)
    requires 1 <= NextOf(n, w) <= |xs| + 1 && Exchange(cfg.variant, v, n, w, m).2
    ensures var x := Exchange(cfg.variant, v, n, w, m);
            && LeadsWith(cfg, x.0, v, xs, t) && x.1.currentTerm == t && MatchOf(x.0, w) >= |xs|
            && (forall p :: p != w ==> MatchOf(x.0, p) == MatchOf(n, p) && NextOf(x.0, p) == NextOf(n, p))
            && (AllCaughtUp(cfg, x.0, v, |xs|) ==> x.0.commitIndex == |xs|)
  {
    var req := SentIs(cfg, v, n, w, xs, t);
    var resp := HandleAppend(cfg.variant, w, m, req).1;
    AcceptedMatch(cfg, w, m, req, xs, t);
    CountedExchange(cfg, v, n, req, resp, xs, t);
  }

  lemma SentIs(cfg: Config, v: NodeID, n: Node, w: NodeID, xs: Entries, t: nat) returns (req: AppendRequest)
    requires w in cfg.Peers(v) && LeadsWith(cfg, n, v, xs, t) && 1 <= NextOf(n, w) <= |xs| + 1 && Indexed(xs, 1)
    ensures MakeAppend(v, n, w) == Some(req) && req == Request(v, n, w)
    ensures req.term == t && req.leaderId == v && req.prevLogIndex + |req.entries| == |xs| && Indexed(req.entries, req.prevLogIndex + 1)
  {
    LogSafety.MakeAppendPlain(v, n, w, xs);
    req := MakeAppend(v, n, w).value;
    var prev := NextOf(n, w) - 1;
    forall i | 0 <= i < |req.entries| ensures req.entries[i].index == prev + 1 + i { assert req.entries[i] == xs[prev + i]; }
  }

  lemma AcceptedMatch(cfg: Config, w: NodeID, m: Node, req: AppendRequest, xs: Entries, t: nat)
    requires cfg.variant.rereadTerm && FollowsWith(m, t) && req.term == t
    requires req.prevLogIndex + |req.entries| == |xs| && Indexed(req.entries, req.prevLogIndex + 1)
    requires HandleAppend(cfg.variant, w, m, req).1.success
    ensures var (m', resp) := HandleAppend(cfg.variant, w, m, req);
            resp.matchIndex >= |xs| && resp.term == t && m'.currentTerm == t && resp.followerId == w
  {
    AppendLaw(cfg.variant, w, m, req, Seq(m.log));
    AcceptLaw(cfg.variant, w, m, req, Seq(m.log));
  }

  lemma CountedExchange(cfg: Config, v: NodeID, n: Node, req: AppendRequest, resp: AppendResponse, xs: Entries, t: nat)
    requires LeadsWith(cfg, n, v, xs, t) && OwnLog(xs, t) && req.term == t && resp.term == t && resp.success
    requires resp.followerId in cfg.Peers(v) && resp.matchIndex >= |xs|
    ensures var n' := HandleAppendReply(cfg.variant, n, req, resp);
            && LeadsWith(cfg, n', v, xs, t) && MatchOf(n', resp.followerId) >= |xs|
            && (forall p :: p != resp.followerId ==> MatchOf(n', p) == MatchOf(n, p) && NextOf(n', p) == NextOf(n, p))
            && (AllCaughtUp(cfg, n', v, |xs|) ==> n'.commitIndex == |xs|)
  {
    UsedReplyLaw(cfg.variant, n, req, resp);
    AppendReplyLaw(cfg.variant, n, req, resp);
    var n' := HandleAppendReply(cfg.variant, n, req, resp);
    FromSeqReads(xs);
    var matches := n'.leader.value.matchIndex;
    CommitRule.ScanIsGreatest(matches, n.commitIndex, |xs|, t, n.log);
    if AllCaughtUp(cfg, n', v, |xs|) {
      assert Holders(matches, |xs|) == matches.Keys by {
        forall p | p in matches ensures matches[p] >= |xs| { assert MatchOf(n', p) >= |xs|; }
      }
      assert |matches| == |matches.Keys|;
      assert CommitRule.Committable(matches, t, n.log, |xs|);
    }
  }

  // ---------------------------------------------------------------------
  // Until the follower accepts
  // ---------------------------------------------------------------------

  /** What catching up with `w` leaves of everything else. */
  ghost predicate OnlyAbout(cfg: Config, c: State, c': State, v: NodeID, w: NodeID) {
    && c.nodes.Keys == c'.nodes.Keys == cfg.nodes
    && (forall u :: u in cfg.nodes && u != v && u != w ==> c'.nodes[u] == c.nodes[u])
    && (v in cfg.nodes ==>
          forall p :: p != w ==> MatchOf(c'.nodes[v], p) == MatchOf(c.nodes[v], p) && NextOf(c'.nodes[v], p) == NextOf(c.nodes[v], p))
  }

  lemma RefusedExchange(cfg: Config, v: NodeID, n: Node, w: NodeID, m: Node, xs: Entries, t: nat)
    requires w in cfg.Peers(v) && LeadsWith(cfg, n, v, xs, t) && FollowsWith(m, t)
    requires 1 <= NextOf(n, w) <= |xs| + 1 && !Exchange(cfg.variant, v, n, w, m).2
    ensures var x := Exchange(cfg.variant, v, n, w, m);
            && LeadsWith(cfg, x.0, v, xs, t) && FollowsWith(x.1, t) && 1 <= NextOf(x.0, w) < NextOf(n, w)
            && (forall p :: p != w ==> MatchOf(x.0, p) == MatchOf(n, p) && NextOf(x.0, p) == NextOf(n, p))
  {
    ExchangeIs(cfg.variant, v, n, w, m, xs, Seq(m.log));
    RefusalLowersNext(cfg.variant, v, n, w, m, xs, Seq(m.log));
  }

  lemma {:induction false} CatchUpOne(cfg: Config, r: Run, v: NodeID, w: NodeID, xs: Entries, t: nat) returns (r': Run)
    requires Going(cfg, r) && cfg.variant.rereadTerm && v in cfg.nodes && w in cfg.Peers(v) && OwnLog(xs, t)
    requires LeadsWith(cfg, End(r).nodes[v], v, xs, t) && FollowsWith(End(r).nodes[w], t) && 1 <= NextOf(End(r).nodes[v], w) <= |xs| + 1
    ensures Going(cfg, r') && Continues(cfg, r, r') && OnlyAbout(cfg, End(r), End(r'), v, w)
    ensures LeadsWith(cfg, End(r').nodes[v], v, xs, t) && MatchOf(End(r').nodes[v], w) >= |xs|
    ensures AllCaughtUp(cfg, End(r').nodes[v], v, |xs|) ==> End(r').nodes[v].commitIndex == |xs|
    decreases NextOf(End(r).nodes[v], w)
  {
    hide IsRun, Continues, Exchange, FollowsWith, LeadsWith;
    var n, m := End(r).nodes[v], End(r).nodes[w];
    var req := SentIs(cfg, v, n, w, xs, t);
    var r1 := ThreeSteps(cfg, r, v, w);
    if Exchange(cfg.variant, v, n, w, m).2 {
      AcceptedExchange(cfg, v, n, w, m, xs, t);
      r' := r1;
    } else {
      RefusedExchange(cfg, v, n, w, m, xs, t);
      r' := CatchUpOne(cfg, r1, v, w, xs, t);
      Onward(cfg, r, r1, r');
    }
  }

  /** All of `ws`, one after the other. */
  lemma {:induction false} CatchUpAll(cfg: Config, r: Run, v: NodeID, ws: set<NodeID>, xs: Entries, t: nat) returns (r': Run)
    requires Going(cfg, r) && cfg.variant.rereadTerm && v in cfg.nodes && ws <= cfg.Peers(v) && OwnLog(xs, t)
    requires LeadsWith(cfg, End(r).nodes[v], v, xs, t)
    requires forall w :: w in ws ==> FollowsWith(End(r).nodes[w], t) && 1 <= NextOf(End(r).nodes[v], w) <= |xs| + 1
    ensures Going(cfg, r') && Continues(cfg, r, r') && LeadsWith(cfg, End(r').nodes[v], v, xs, t)
    ensures forall p :: MatchOf(End(r').nodes[v], p) >= if p in ws then |xs| else MatchOf(End(r).nodes[v], p)
    ensures ws != {} && AllCaughtUp(cfg, End(r').nodes[v], v, |xs|) ==> End(r').nodes[v].commitIndex == |xs|
    decreases ws
  {
    hide IsRun, Continues, LeadsWith, FollowsWith, AllCaughtUp;
    if ws == {} {
      r' := r;
      Stays(cfg, r);
    } else {
      var w :| w in ws;
      var rest := ws - {w};
      var r1 := CatchUpOne(cfg, r, v, w, xs, t);
      if rest == {} {
        assert ws == {w};
        r' := r1;
      } else {
        r' := CatchUpAll(cfg, r1, v, rest, xs, t);
        Onward(cfg, r, r1, r');
      }
    }
  }

  // ---------------------------------------------------------------------
  // Any command, after any run
  // ---------------------------------------------------------------------

  lemma ShapeAtEnd(cfg: Config, r: Run, w: NodeID)
    requires Going(cfg, r) && cfg.variant.rereadTerm && w in cfg.nodes
    ensures Plain(End(r).nodes[w].log) && Splice.PositiveTerms(Seq(End(r).nodes[w].log)) && Indexed(Seq(End(r).nodes[w].log), 1)
  {
    LogShapes.LogShape(cfg, r, |r.labels|, w);
    var xs := Seq(End(r).nodes[w].log);
    forall i | 0 <= i < |xs| ensures xs[i].term >= 1 {
      assert LogShapes.Rising(xs, 1, End(r).nodes[w].currentTerm);
      assert 1 <= xs[i].term <= xs[i].term;
    }
  }

  /** The new leader takes the command and has a log of its own term. */
  lemma TakesCommand(cfg: Config, r: Run, v: NodeID, l: Log, t: nat, c: Command) returns (r': Run, xs: Entries)
    requires Going(cfg, r) && cfg.variant.rereadTerm && v in cfg.nodes && NewLeader(cfg, End(r).nodes[v], v, l, t) && Plain(l)
    ensures Going(cfg, r') && Continues(cfg, r, r') && OthersSame(cfg, End(r), End(r'), v)
    ensures LeadsWith(cfg, End(r').nodes[v], v, xs, t) && OwnLog(xs, t) && xs[|xs| - 1].command == c
    ensures forall w :: w in cfg.Peers(v) ==> 1 <= NextOf(End(r').nodes[v], w) <= |xs| + 1
  {
    hide IsRun;
    ShapeAtEnd(cfg, r, v);
    xs := CommandAdded(cfg, End(r).nodes[v], v, l, t, c);
    r' := Go(cfg, r, v, ClientCommand(c));
  }

  lemma CommandAdded(cfg: Config, n: Node, v: NodeID, l: Log, t: nat, c: Command) returns (xs: Entries)
    requires NewLeader(cfg, n, v, l, t) && Plain(l) && Plain(n.log) && Indexed(Seq(n.log), 1)
    ensures LeadsWith(cfg, Propose(n, c), v, xs, t) && OwnLog(xs, t) && xs[|xs| - 1].command == c
    ensures forall w :: w in cfg.Peers(v) ==> 1 <= NextOf(Propose(n, c), w) <= |xs| + 1
  {
    var ys := Seq(n.log);
    hide LastIndex, FromSeq, Propose, OwnLog, Indexed;
    NoopLast(l, t);
    ProposeLaw(n, c, ys);
    FromSeqReads(ys);
    OwnLogAdded(ys, t, c);
    xs := ys + [LogEntry(|ys| + 1, t, c)];
  }

  lemma OwnLogAdded(ys: Entries, t: nat, c: Command)
    requires Indexed(ys, 1)
    ensures OwnLog(ys + [LogEntry(|ys| + 1, t, c)], t)
  {
  }

  lemma NoopLast(l: Log, t: nat)
    requires Plain(l)
    ensures LastIndex(Append(l, LogEntry(LastIndex(l) + 1, t, NOOP))) == LastIndex(l) + 1
  {
    var zs := Seq(l);
    FromSeqReads(zs);
    FromSeqAppend(zs, LogEntry(|zs| + 1, t, NOOP));
    FromSeqReads(zs + [LogEntry(|zs| + 1, t, NOOP)]);
  }

  lemma AppliesAll(cfg: Config, r: Run, v: NodeID, xs: Entries, t: nat) returns (r': Run)
    requires Going(cfg, r) && v in cfg.nodes && LeadsWith(cfg, End(r).nodes[v], v, xs, t) && End(r).nodes[v].commitIndex == |xs|
    ensures Going(cfg, r') && Continues(cfg, r, r') && Committed(End(r').nodes[v], xs, t)
  {
    Replay.ApplyPlain(End(r).nodes[v], xs);
    r' := Go(cfg, r, v, Apply);
  }

  /** A leader of term `t` that has committed and applied the log `xs`. */
  ghost predicate Committed(n: Node, xs: Entries, t: nat) {
    n.role == Leader && n.currentTerm == t && n.log == FromSeq(xs) && n.commitIndex == n.lastApplied == |xs|
  }

  /** Every run goes on to one in which the command is committed and applied by the leader of a new term. */
  lemma AlwaysCommittable(cfg: Config, r: Run, c: Command) returns (r': Run, v: NodeID, xs: Entries, t: nat)
    requires IsRun(cfg, r) && |cfg.nodes| >= 2 && cfg.variant.rereadTerm
    ensures Going(cfg, r') && Continues(cfg, r, r') && v in cfg.nodes
    ensures Committed(End(r').nodes[v], xs, t) && xs != [] && xs[|xs| - 1].command == c
    ensures End(r).nodes.Keys == cfg.nodes && forall w :: w in cfg.nodes ==> End(r).nodes[w].currentTerm < t
  {
    var r1;
    r1, v, t := AlwaysElectable(cfg, r);
    ShapeAtEnd(cfg, r, v);
    var r2;
    r2, xs := TakesCommand(cfg, r1, v, End(r).nodes[v].log, t, c);
    var r3 := AllFollow(cfg, r, r1, r2, v, xs, t);
    r' := AppliesAll(cfg, r3, v, xs, t);
    Onward(cfg, r, r1, r2);
    Onward(cfg, r, r2, r3);
    Onward(cfg, r, r3, r');
  }

  lemma PeersFollow(cfg: Config, r: Run, v: NodeID, t: nat)
    requires Going(cfg, r) && cfg.variant.rereadTerm && forall w :: w in cfg.Peers(v) ==> End(r).nodes[w].currentTerm == t
    ensures forall w :: w in cfg.Peers(v) ==> FollowsWith(End(r).nodes[w], t)
  {
    forall w | w in cfg.Peers(v) ensures FollowsWith(End(r).nodes[w], t) {
      ShapeAtEnd(cfg, r, w);
    }
  }

  lemma AllFollow(cfg: Config, r: Run, r1: Run, r2: Run, v: NodeID, xs: Entries, t: nat) returns (r3: Run)
    requires |cfg.nodes| >= 2 && cfg.variant.rereadTerm && ElectedAfter(cfg, r, r1, v, t) && Going(cfg, r2)
    requires OthersSame(cfg, End(r1), End(r2), v) && LeadsWith(cfg, End(r2).nodes[v], v, xs, t) && OwnLog(xs, t)
    requires forall w :: w in cfg.Peers(v) ==> 1 <= NextOf(End(r2).nodes[v], w) <= |xs| + 1
    ensures Going(cfg, r3) && Continues(cfg, r2, r3)
    ensures LeadsWith(cfg, End(r3).nodes[v], v, xs, t) && End(r3).nodes[v].commitIndex == |xs|
  {
    hide LeadsWith, Continues, IsRun, NewLeader, FollowsWith;
    PeersFollow(cfg, r2, v, t);
    r3 := CatchUpAll(cfg, r2, v, cfg.Peers(v), xs, t);
    assert |cfg.Peers(v)| == |cfg.nodes| - 1;
    assert AllCaughtUp(cfg, End(r3).nodes[v], v, |xs|);
  }
}
