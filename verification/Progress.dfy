/** Runs that get somewhere: in every cluster of two nodes or more any commands can be committed and
    applied, so the safety theorems speak of more than idle runs. */
module Progress {
  import opened Types
  import opened LogModel
  import opened NodeModel
  import opened StateMachine
  import opened Quorum
  import opened Cluster
  import opened LogRuns
  import opened Safety
  import opened Scenario
  import Replay

  type Entries = seq<LogEntry>

  /** The log of a first leader that took the commands `cmds`. */
  function Written(cmds: seq<Command>): (xs: Entries)
    ensures |xs| == |cmds| + 1 && xs[0] == LogEntry(1, 1, NOOP)
    ensures forall k :: 0 <= k < |cmds| ==> xs[k + 1] == LogEntry(k + 2, 1, cmds[k])
  {
    if cmds == [] then [LogEntry(1, 1, NOOP)]
    else Written(cmds[..|cmds| - 1]) + [LogEntry(|cmds| + 1, 1, cmds[|cmds| - 1])]
  }

  lemma WrittenFacts(cmds: seq<Command>)
    ensures var xs := Written(cmds); xs != [] && Indexed(xs, 1) && LastTermOf(xs) == 1
  {
    var xs := Written(cmds);
    forall i | 0 <= i < |xs| ensures xs[i].index == 1 + i {
      if i > 0 { assert xs[(i - 1) + 1] == LogEntry(i + 1, 1, cmds[i - 1]); }
    }
    if cmds != [] { assert xs[(|cmds| - 1) + 1].term == 1; }
  }

  lemma {:induction false} ProposeAll(cfg: Config, c: State, v: NodeID, ls: LeaderState, cmds: seq<Command>) returns (c': State)
    requires At(cfg, c) && v in cfg.nodes && c.nodes[v] == Leading(v, 1, FromSeq([Entry(1, 1)]), ls, 0)
    ensures At(cfg, c') && c' == State(c.nodes[v := Leading(v, 1, FromSeq(Written(cmds)), ls, 0)], c.msgs)
    decreases |cmds|
  {
    if cmds == [] {
      c' := c;
      assert c.nodes[v := c.nodes[v]] == c.nodes;
    } else {
      var front, cmd := cmds[..|cmds| - 1], cmds[|cmds| - 1];
      var c1 := ProposeAll(cfg, c, v, ls, front);
      c' := ProposeMove(cfg, c1, v, 1, Written(front), ls, cmd);
      assert c1.nodes[v := c'.nodes[v]] == c.nodes[v := c'.nodes[v]];
    }
  }

  /** All the other nodes elect `v`. */
  lemma EverybodyElects(cfg: Config, v: NodeID)
    requires cfg.Valid() && v in cfg.nodes && |cfg.nodes| >= 2
    ensures Elects(cfg, v, cfg.Peers(v)) && 1 + |cfg.Peers(v)| >= CommitMajority(|cfg.Peers(v)|)
  {
    assert |cfg.nodes - {v}| == |cfg.nodes| - 1;
  }

  lemma FirstLeader(cfg: Config, v: NodeID, cmds: seq<Command>) returns (c: State)
    requires cfg.Valid() && v in cfg.nodes && |cfg.nodes| >= 2
    ensures At(cfg, c) && c.nodes[v] == Leading(v, 1, FromSeq(Written(cmds)), NewLeaderState(cfg.Peers(v), 0), 0)
    ensures forall w :: w in cfg.Peers(v) ==> c.nodes[w] == Voter(1, v)
  {
    EverybodyElects(cfg, v);
    EmptyReads();
    c := Start(cfg);
    c := StandMove(cfg, c, v, 0, NO_NODE, EMPTY, NO_NODE);
    c := ElectFirst(cfg, c, v, 1, cfg.Peers(v));
    c := ProposeAll(cfg, c, v, NewLeaderState(cfg.Peers(v), 0), cmds);
  }

  /** Every node holds the log and the leader has committed it. */
  lemma Replicated(cfg: Config, v: NodeID, cmds: seq<Command>) returns (c: State, ls: LeaderState)
    requires cfg.Valid() && v in cfg.nodes && |cfg.nodes| >= 2
    ensures At(cfg, c) && c.nodes[v] == Leading(v, 1, FromSeq(Written(cmds)), ls, |cmds| + 1)
    ensures Matched(ls, cfg.Peers(v), cfg.Peers(v), |cmds| + 1, NewMaps(cfg, v, 0).nextIndex)
    ensures forall w :: w in cfg.Peers(v) ==> c.nodes[w] == Following(1, v, FromSeq(Written(cmds)), v)
  {
    EverybodyElects(cfg, v);
    WrittenFacts(cmds);
    c := FirstLeader(cfg, v, cmds);
    c, ls := Replicate(cfg, c, v, 1, Written(cmds), cfg.Peers(v));
  }

  /** Whatever the commands, some run commits and applies them, and the leader's store is their fold. */
  lemma AnyCommandsCommit(cfg: Config, v: NodeID, cmds: seq<Command>) returns (r: Run)
    requires cfg.Valid() && v in cfg.nodes && |cfg.nodes| >= 2
    ensures IsRun(cfg, r) && (SafeSize(|cfg.nodes|) && Sound(cfg) ==> SafeRun(cfg, r))
    ensures var i := |r.labels|;
            && In(r, i, v) && NodeAt(r, i, v).role == Leader && NodeAt(r, i, v).log == FromSeq(Written(cmds))
            && NodeAt(r, i, v).commitIndex == NodeAt(r, i, v).lastApplied == |cmds| + 1
            && NodeAt(r, i, v).store == Fold(map[], Written(cmds))
  {
    var c, ls := Replicated(cfg, v, cmds);
    var xs := Written(cmds);
    Replay.ApplyPlain(c.nodes[v], xs);
    assert xs[0..|xs|] == xs;
    c := ApplyMove(cfg, c, v);
    r :| EndsIn(cfg, r, c);
  }
}
