/** In every cluster of even size four or more, repaired or not, a leader of a later term can hold another
    entry in place of a committed one: two leaders of one term write different entries with one index and
    one term, which no later election can tell apart. */
module SplitBrain {
  import opened Types
  import opened LogModel
  import opened NodeModel
  import opened Quorum
  import opened Cluster
  import opened Scenario
  import EvenCluster
  import Replay
  import Splice

  type Entries = seq<LogEntry>

  /** `a` is elected by `va` and `b` by `vb`; `w`, one of `vb`, follows `a` as well. */
  ghost predicate Cast(cfg: Config, a: NodeID, b: NodeID, va: set<NodeID>, vb: set<NodeID>, w: NodeID) {
    && cfg.Valid() && a != b && Elects(cfg, a, va) && Elects(cfg, b, vb) && w in vb
    && a !in va && a !in vb && b !in va && b !in vb && (forall v :: v in va ==> v !in vb)
  }

  ghost predicate Enough(cfg: Config, a: NodeID, va: set<NodeID>, w: NodeID) {
    1 + |va + {w}| >= CommitMajority(|cfg.Peers(a)|)
  }

  lemma CastExists(cfg: Config) returns (a: NodeID, b: NodeID, va: set<NodeID>, vb: set<NodeID>, w: NodeID)
    requires cfg.Valid() && !SafeSize(|cfg.nodes|)
    ensures Cast(cfg, a, b, va, vb, w) && Enough(cfg, a, va, w)
  {
    var A, B := DisjointWinners(cfg.nodes);
    a :| a in A;
    b :| b in B;
    va, vb := A - {a}, B - {b};
    assert |va| == |A| - 1 && |vb| == |B| - 1;
    assert |cfg.nodes - {a}| == |cfg.nodes - {b}| == |cfg.nodes| - 1;
    w :| w in vb;
    assert |va + {w}| == |va| + 1;
  }

  const X := LogEntry(2, 1, Command(Put, "x", [1], []))
  const Y := LogEntry(2, 1, Command(Put, "x", [2], []))
  const XS: Entries := [Entry(1, 1), X]
  const YS: Entries := [Entry(1, 1), Y]

  /** Both lead term 1. */
  lemma TwoLeaders(cfg: Config, a: NodeID, b: NodeID, va: set<NodeID>, vb: set<NodeID>, w: NodeID) returns (c: State)
    requires Cast(cfg, a, b, va, vb, w)
    ensures At(cfg, c) && c.nodes[a] == Leading(a, 1, FromSeq([Entry(1, 1)]), NewMaps(cfg, a, 0), 0)
    ensures c.nodes[b] == Leading(b, 1, FromSeq([Entry(1, 1)]), NewMaps(cfg, b, 0), 0)
    ensures AllAre(c, va, Voter(1, a)) && AllAre(c, vb, Voter(1, b))
  {
    EmptyReads();
    c := EvenCluster.BothStand(cfg, a, b);
    c := ElectFirst(cfg, c, a, 1, va);
    c := ElectFirst(cfg, c, b, 1, vb);
  }

  /** Each takes a command of its own. */
  lemma TwoLogs(cfg: Config, a: NodeID, b: NodeID, va: set<NodeID>, vb: set<NodeID>, w: NodeID) returns (c: State)
    requires Cast(cfg, a, b, va, vb, w)
    ensures At(cfg, c) && c.nodes[a] == Leading(a, 1, FromSeq(XS), NewMaps(cfg, a, 0), 0)
    ensures c.nodes[b] == Leading(b, 1, FromSeq(YS), NewMaps(cfg, b, 0), 0)
    ensures AllAre(c, va, Voter(1, a)) && AllAre(c, vb, Voter(1, b))
  {
    c := TwoLeaders(cfg, a, b, va, vb, w);
    c := ProposeMove(cfg, c, a, 1, [Entry(1, 1)], NewMaps(cfg, a, 0), X.command);
    c := ProposeMove(cfg, c, b, 1, [Entry(1, 1)], NewMaps(cfg, b, 0), Y.command);
    assert [Entry(1, 1)] + [X] == XS && [Entry(1, 1)] + [Y] == YS;
  }

  /** A run that ends with `w` taking the log of `a`, while `b` leads the same term with another. */
  lemma TwoLogsRun(cfg: Config) returns (r: Run, a: NodeID, b: NodeID, w: NodeID)
    requires cfg.Valid() && !SafeSize(|cfg.nodes|)
    ensures AcceptsLast(cfg, r, w, AppendRequest(1, a, 0, 0, XS, 0)) && a in cfg.nodes && b in cfg.nodes
    ensures var c, c' := r.states[|r.labels| - 1], r.states[|r.labels|];
            && HandleAppend(cfg.variant, w, c.nodes[w], AppendRequest(1, a, 0, 0, XS, 0)) ==
               (Following(1, b, FromSeq(XS), a), AppendResponse(1, true, w, 2, 0, 0))
            && c'.nodes[w].log == FromSeq(XS) && c'.nodes[b] == Leading(b, 1, FromSeq(YS), NewMaps(cfg, b, 0), 0)
  {
    var va, vb;
    a, b, va, vb, w := CastExists(cfg);
    var c := TwoLogs(cfg, a, b, va, vb, w);
    r := TakesOne(cfg, c, a, b, w);
  }

  lemma TakesOne(cfg: Config, c: State, a: NodeID, b: NodeID, w: NodeID) returns (r: Run)
    requires At(cfg, c) && a in cfg.nodes && b in cfg.nodes && w in cfg.Peers(a) && w != b
    requires c.nodes[a] == Leading(a, 1, FromSeq(XS), NewMaps(cfg, a, 0), 0) && c.nodes[w] == Voter(1, b)
    ensures AcceptsLast(cfg, r, w, AppendRequest(1, a, 0, 0, XS, 0))
    ensures r.states[|r.labels| - 1].nodes == c.nodes
    ensures HandleAppend(cfg.variant, w, c.nodes[w], AppendRequest(1, a, 0, 0, XS, 0)) ==
            (Following(1, b, FromSeq(XS), a), AppendResponse(1, true, w, 2, 0, 0))
    ensures r.states[|r.labels|].nodes == c.nodes[w := Following(1, b, FromSeq(XS), a)]
  {
    hide Reachable, HandleAppend, IsRun;
    var req := RequestFor(a, w, 1, XS, NewMaps(cfg, a, 0), 0);
    assert XS[0..] == XS;
    var c1 := SendMove(cfg, c, a, w, req);
    TakesAll(cfg.variant, w, c.nodes[w], req);
    r := AcceptRun(cfg, c1, w, req);
  }

  /** `a` commits its command. */
  lemma Commits(cfg: Config, a: NodeID, b: NodeID, va: set<NodeID>, vb: set<NodeID>, w: NodeID) returns (c: State, ls: LeaderState)
    requires Cast(cfg, a, b, va, vb, w) && Enough(cfg, a, va, w)
    ensures At(cfg, c) && c.nodes[a] == Leading(a, 1, FromSeq(XS), ls, 2)
    ensures c.nodes[b] == Leading(b, 1, FromSeq(YS), NewMaps(cfg, b, 0), 0)
    ensures c.nodes[w] == Following(1, b, FromSeq(XS), a) && AllAre(c, vb - {w}, Voter(1, b))
    ensures forall v :: v in va + {w} ==> HoldsXS(c.nodes[v])
  {
    c := TwoLogs(cfg, a, b, va, vb, w);
    c, ls := Replicate(cfg, c, a, 1, XS, va + {w});
  }

  /** `b` restarts and stands for term 2. */
  lemma StandsAgain(cfg: Config, c: State, b: NodeID) returns (c': State)
    requires At(cfg, c) && b in cfg.nodes && c.nodes[b] == Leading(b, 1, FromSeq(YS), NewMaps(cfg, b, 0), 0)
    ensures At(cfg, c') && c'.nodes == c.nodes[b := Campaigning(cfg.Peers(b), b, 2, FromSeq(YS), NO_NODE, {})]
    ensures VoteReq(VoteRequest(2, b, 2, 1)) in c'.msgs
  {
    FromSeqReads(YS);
    assert Restart(c.nodes[b], cfg.persistentStore) == Following(1, b, FromSeq(YS), NO_NODE);
    c' := CrashMove(cfg, c, b);
    c' := StandMove(cfg, c', b, 1, b, FromSeq(YS), NO_NODE);
  }

  /** `w` cannot tell the two logs apart and votes for `b`; so do the others that elected it before. */
  lemma Overruled(cfg: Config, c: State, a: NodeID, b: NodeID, vb: set<NodeID>, w: NodeID) returns (c': State)
    requires At(cfg, c) && Elects(cfg, b, vb) && a in cfg.nodes && a != b && a !in vb && w in vb
    requires c.nodes[b] == Leading(b, 1, FromSeq(YS), NewMaps(cfg, b, 0), 0)
    requires c.nodes[w] == Following(1, b, FromSeq(XS), a) && AllAre(c, vb - {w}, Voter(1, b))
    ensures At(cfg, c') && c'.nodes[a] == c.nodes[a]
    ensures c'.nodes[b].role == Leader && c'.nodes[b].currentTerm == 2 && c'.nodes[b].log == Append(FromSeq(YS), Entry(3, 2))
  {
    FromSeqReads(XS);
    FromSeqReads(YS);
    var req := VoteRequest(2, b, 2, 1);
    c' := StandsAgain(cfg, c, b);
    c' := VoteMove(cfg, c', w, req, FromSeq(XS), a);
    c' := CountMove(cfg, c', b, 2, FromSeq(YS), NO_NODE, {}, req, w);
    assert {} + {w} == {w};
    c' := Poll(cfg, c', b, 2, FromSeq(YS), NO_NODE, {w}, vb - {w});
    assert {w} + (vb - {w}) == vb;
    c' := WinMove(cfg, c', b, 2, FromSeq(YS), NO_NODE, vb);
  }

  /** A reachable state has a leader of term 2 whose entry at index 2 is not the one a leader of term 1
      has committed there. */
  lemma CommittedEntryOverruled(cfg: Config) returns (c: State, a: NodeID, b: NodeID)
    requires cfg.Valid() && !SafeSize(|cfg.nodes|)
    ensures At(cfg, c) && a in cfg.nodes && b in cfg.nodes
    ensures c.nodes[a].currentTerm == 1 && c.nodes[a].commitIndex == 2
    ensures 2 in c.nodes[a].log.entries && c.nodes[a].log.entries[2] == X
    ensures c.nodes[b].role == Leader && c.nodes[b].currentTerm == 2
    ensures 2 in c.nodes[b].log.entries && c.nodes[b].log.entries[2] == Y
  {
    var va, vb, w, ls;
    a, b, va, vb, w := CastExists(cfg);
    c, ls := Commits(cfg, a, b, va, vb, w);
    c := Overruled(cfg, c, a, b, vb, w);
  }

  // ---------------------------------------------------------------------
  // Both commands applied
  // ---------------------------------------------------------------------

  /** A follower that holds the log of `a`, and has nothing to tell it from that of `b`. */
  ghost predicate HoldsXS(n: Node) {
    n == Following(1, n.votedFor, FromSeq(XS), n.leaderID)
  }

  lemma CannotTell(variant: Variant, b: NodeID, w: NodeID, n: Node)
    requires HoldsXS(n)
    ensures HandleAppend(variant, w, n, AppendRequest(1, b, 0, 0, YS, 0)) == (n.(leaderID := b), AppendResponse(1, true, w, 2, 0, 0))
  {
    FromSeqReads(XS);
    Splice.PassesOver(variant.rereadTerm, XS, 0, YS);
    Splice.PassesOver(variant.rereadTerm, XS, 1, YS[1..]);
  }

  lemma ConfirmOne(cfg: Config, c: State, b: NodeID, w: NodeID) returns (c': State)
    requires At(cfg, c) && b in cfg.nodes && w in cfg.Peers(b) && c.nodes[b] == Leading(b, 1, FromSeq(YS), NewMaps(cfg, b, 0), 0)
    requires HoldsXS(c.nodes[w])
    ensures At(cfg, c') && c.msgs <= c'.msgs && Acked(cfg, c', b, 1, w, 2)
    ensures forall u :: u in cfg.nodes && u != w ==> c'.nodes[u] == c.nodes[u]
  {
    var req := RequestFor(b, w, 1, YS, NewMaps(cfg, b, 0), 0);
    assert YS[0..] == YS;
    CannotTell(cfg.variant, b, w, c.nodes[w]);
    c' := SendMove(cfg, c, b, w, req);
    c' := AppendMove(cfg, c', w, req, c.nodes[w].(leaderID := b), AppendResponse(1, true, w, 2, 0, 0));
    assert AckedBy(cfg, c', b, 1, w, 2, req, 1);
  }

  /** The followers of `a` acknowledge to `b` what they hold of `a`. */
  lemma {:induction false} Confirm(cfg: Config, c: State, b: NodeID, ws: set<NodeID>) returns (c': State)
    requires At(cfg, c) && b in cfg.nodes && ws <= cfg.Peers(b) && c.nodes[b] == Leading(b, 1, FromSeq(YS), NewMaps(cfg, b, 0), 0)
    requires forall w :: w in ws ==> HoldsXS(c.nodes[w])
    ensures At(cfg, c') && c.msgs <= c'.msgs && AllAcked(cfg, c', b, 1, ws, 2)
    ensures forall u :: u in cfg.nodes && u !in ws ==> c'.nodes[u] == c.nodes[u]
    decreases ws
  {
    if ws == {} {
      c' := c;
    } else {
      var w :| w in ws;
      var c1 := ConfirmOne(cfg, c, b, w);
      c' := Confirm(cfg, c1, b, ws - {w});
      AckedStill(cfg, c1, c', b, 1, {w}, 2);
      assert forall u :: u in ws ==> u in ws - {w} || u in {w};
    }
  }

  /** `b` commits its own command on acknowledgements of the other one. */
  lemma BothCommit(cfg: Config, c: State, a: NodeID, b: NodeID, ws: set<NodeID>) returns (c': State, ls: LeaderState)
    requires At(cfg, c) && a in cfg.nodes && a != b && a !in ws && b in cfg.nodes && ws <= cfg.Peers(b) && ws != {}
    requires 1 + |ws| >= CommitMajority(|cfg.Peers(b)|) && c.nodes[b] == Leading(b, 1, FromSeq(YS), NewMaps(cfg, b, 0), 0)
    requires forall w :: w in ws ==> HoldsXS(c.nodes[w])
    ensures At(cfg, c') && c'.nodes[a] == c.nodes[a] && c'.nodes[b] == Leading(b, 1, FromSeq(YS), ls, 2)
  {
    c' := Confirm(cfg, c, b, ws);
    NewMapsMatched(cfg.Peers(b), 0, 2);
    NobodyCounted(cfg.Peers(b), 2);
    assert {} + ws == ws;
    c', ls := CountReplies(cfg, c', b, 1, YS, NewMaps(cfg, b, 0), {}, NewMaps(cfg, b, 0).nextIndex, ws);
  }

  /** A reachable state in which two nodes have applied different commands at index 2. */
  lemma AppliedDifferently(cfg: Config) returns (c: State, a: NodeID, b: NodeID)
    requires cfg.Valid() && !SafeSize(|cfg.nodes|)
    ensures At(cfg, c) && a in cfg.nodes && b in cfg.nodes
    ensures c.nodes[a].lastApplied == 2 && c.nodes[a].log == FromSeq(XS)
    ensures c.nodes[b].lastApplied == 2 && c.nodes[b].log == FromSeq(YS)
  {
    var va, vb, w, ls;
    a, b, va, vb, w := CastExists(cfg);
    c, ls := Commits(cfg, a, b, va, vb, w);
    assert |cfg.Peers(a)| == |cfg.Peers(b)| == |cfg.nodes| - 1;
    c, ls := BothCommit(cfg, c, a, b, va + {w});
    c := BothApply(cfg, c, a, b);
  }

  lemma BothApply(cfg: Config, c: State, a: NodeID, b: NodeID) returns (c': State)
    requires At(cfg, c) && a in cfg.nodes && b in cfg.nodes && a != b
    requires c.nodes[a].log == FromSeq(XS) && c.nodes[a].commitIndex == 2 && c.nodes[a].lastApplied == 0
    requires c.nodes[b].log == FromSeq(YS) && c.nodes[b].commitIndex == 2 && c.nodes[b].lastApplied == 0
    ensures At(cfg, c') && c'.nodes[a].lastApplied == 2 && c'.nodes[a].log == FromSeq(XS)
    ensures c'.nodes[b].lastApplied == 2 && c'.nodes[b].log == FromSeq(YS)
  {
    Replay.ApplyPlain(c.nodes[a], XS);
    Replay.ApplyPlain(c.nodes[b], YS);
    c' := ApplyMove(cfg, c, a);
    c' := ApplyMove(cfg, c', b);
  }
}
