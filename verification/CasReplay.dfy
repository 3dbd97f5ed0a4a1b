/** Two nodes of one cluster that have applied the same log and hold different stores: one of them has
    restarted over a store that survived, and the log has CASes that a replay does not reproduce. */
module CasReplay {
  import opened Types
  import opened LogModel
  import opened NodeModel
  import opened StateMachine
  import opened Cluster
  import opened Quorum
  import opened History
  import opened LogRuns
  import opened Safety
  import opened StoreSafety
  import opened Scenario
  import opened Progress
  import Replay

  /** A follower with the whole log, `s` in its store and nothing applied since it started. */
  ghost function Follower(v: NodeID, xs: Entries, led: NodeID, s: Store): Node {
    Following(1, v, FromSeq(xs), led).(store := s)
  }

  ghost function Heartbeat(v: NodeID, xs: Entries): AppendRequest {
    AppendRequest(1, v, |xs|, TermOf(xs, |xs|), [], |xs|)
  }

  /** A heartbeat lets the follower commit all it holds. */
  lemma HeartbeatIs(variant: Variant, v: NodeID, w: NodeID, xs: Entries, led: NodeID, s: Store)
    ensures HandleAppend(variant, w, Follower(v, xs, led, s), Heartbeat(v, xs)) ==
            (Follower(v, xs, v, s).(commitIndex := |xs|), AppendResponse(1, true, w, |xs|, 0, 0))
  {
    FromSeqReads(xs);
  }

  /** The follower hears the heartbeat and applies its log over what its store holds. */
  lemma HearAndApply(cfg: Config, c: State, v: NodeID, w: NodeID, xs: Entries, led: NodeID, s: Store) returns (c': State)
    requires At(cfg, c) && w in cfg.nodes && c.nodes[w] == Follower(v, xs, led, s) && AppendReq(w, Heartbeat(v, xs)) in c.msgs
    ensures At(cfg, c') && c.msgs <= c'.msgs
    ensures c'.nodes == c.nodes[w := Follower(v, xs, v, Fold(s, xs)).(commitIndex := |xs|, lastApplied := |xs|)]
  {
    HeartbeatIs(cfg.variant, v, w, xs, led, s);
    var n := Follower(v, xs, v, s).(commitIndex := |xs|);
    var c1 := AppendMove(cfg, c, w, Heartbeat(v, xs), n, AppendResponse(1, true, w, |xs|, 0, 0));
    Replay.ApplyPlain(n, xs);
    assert xs[0..|xs|] == xs;
    c' := ApplyMove(cfg, c1, w);
    assert c1.nodes[w := c'.nodes[w]] == c.nodes[w := c'.nodes[w]];
  }

  lemma HeartbeatSent(cfg: Config, c: State, v: NodeID, w: NodeID, xs: Entries, ls: LeaderState) returns (c': State)
    requires At(cfg, c) && v in cfg.nodes && w in cfg.Peers(v) && c.nodes[v] == Leading(v, 1, FromSeq(xs), ls, |xs|)
    requires Lookup(ls.nextIndex, w) == |xs| + 1
    ensures At(cfg, c') && c'.nodes == c.nodes && AppendReq(w, Heartbeat(v, xs)) in c'.msgs
  {
    var req := RequestFor(v, w, 1, xs, ls, |xs|);
    assert xs[|xs|..] == [];
    c' := SendMove(cfg, c, v, w, req);
  }

  /** The follower applies, restarts and applies again. */
  lemma AppliesTwice(cfg: Config, c: State, v: NodeID, w: NodeID, xs: Entries) returns (c': State)
    requires At(cfg, c) && cfg.persistentStore && w in cfg.nodes && AppendReq(w, Heartbeat(v, xs)) in c.msgs
    requires c.nodes[w] == Following(1, v, FromSeq(xs), v)
    ensures At(cfg, c') && (forall u :: u in cfg.nodes && u != w ==> c'.nodes[u] == c.nodes[u])
    ensures c'.nodes[w].lastApplied == |xs| && c'.nodes[w].log == FromSeq(xs)
    ensures c'.nodes[w].store == Fold(Fold(map[], xs), xs)
  {
    c' := HearAndApply(cfg, c, v, w, xs, v, map[]);
    assert Restart(c'.nodes[w], true) == Follower(v, xs, NO_NODE, Fold(map[], xs));
    c' := CrashMove(cfg, c', w);
    c' := HearAndApply(cfg, c', v, w, xs, NO_NODE, Fold(map[], xs));
  }

  /** A reachable state in which leader and follower have applied the same log, the leader once and the
      follower, over a store that survived a crash, twice. */
  lemma OnceAndTwice(cfg: Config, v: NodeID, w: NodeID, cmds: seq<Command>) returns (c: State)
    requires cfg.Valid() && cfg.persistentStore && v in cfg.nodes && w in cfg.Peers(v) && |cfg.nodes| >= 2
    ensures At(cfg, c) && c.nodes[v].log == c.nodes[w].log == FromSeq(Written(cmds))
    ensures c.nodes[v].lastApplied == c.nodes[w].lastApplied == |cmds| + 1
    ensures c.nodes[v].store == Fold(map[], Written(cmds))
    ensures c.nodes[w].store == Fold(Fold(map[], Written(cmds)), Written(cmds))
  {
    var ls;
    var xs := Written(cmds);
    c, ls := Replicated(cfg, v, cmds);
    c := HeartbeatSent(cfg, c, v, w, xs, ls);
    c := AppliesTwice(cfg, c, v, w, xs);
    Replay.ApplyPlain(c.nodes[v], xs);
    assert xs[0..|xs|] == xs;
    c := ApplyMove(cfg, c, v);
  }

  /** For commands with a key that has two CASes or more and neither Put nor Delete, some values take a
      cluster to a state in which two nodes have applied the same log and hold different stores. */
  lemma RestartedStoresDiffer(cfg: Config, v: NodeID, w: NodeID, cmds: seq<Command>) returns (c: State, cmds': seq<Command>)
    requires cfg.Valid() && cfg.persistentStore && v in cfg.nodes && w in cfg.Peers(v) && |cfg.nodes| >= 2
    requires !Replay.Replayable(Written(cmds))
    ensures At(cfg, c) && Replay.SameShape(Written(cmds), Written(cmds')) && c.nodes[v].log == c.nodes[w].log == FromSeq(Written(cmds'))
    ensures c.nodes[v].lastApplied == c.nodes[w].lastApplied == |Written(cmds')|
    ensures c.nodes[v].store == Fold(map[], Written(cmds')) != c.nodes[w].store
  {
    var xs := Written(cmds);
    assert xs[0..|xs|] == xs;
    var key :| !Replay.Settled(xs, key);
    var ys := Replay.ShapeBreaks(xs, 0, |xs|, key);
    cmds' := CommandsOf(xs, ys, cmds);
    assert ys[..|xs|] == ys && ys[0..|xs|] == ys;
    c := OnceAndTwice(cfg, v, w, cmds');
  }

  lemma CommandsOf(xs: Entries, ys: Entries, cmds: seq<Command>) returns (cmds': seq<Command>)
    requires xs == Written(cmds) && |ys| == |xs| && ys[0] == xs[0]
    requires forall k :: 0 <= k < |xs| ==> ys[k].index == xs[k].index && ys[k].term == xs[k].term
    ensures Written(cmds') == ys
  {
    cmds' := seq(|cmds|, k requires 0 <= k < |cmds| => ys[k + 1].command);
    var zs := Written(cmds');
    forall k | 0 <= k < |ys| ensures zs[k] == ys[k] {
      if k > 0 { assert zs[(k - 1) + 1] == LogEntry(k + 1, 1, cmds'[k - 1]) && xs[(k - 1) + 1] == LogEntry(k + 1, 1, cmds[k - 1]); }
    }
  }

  // ---------------------------------------------------------------------
  // The exact condition, over runs
  // ---------------------------------------------------------------------

  /** The node has applied exactly `xs` and, since its last restart, as much as it ever had. */
  ghost predicate HasApplied(r: Run, i: nat, v: NodeID, xs: Entries) {
    && In(r, i, v) && CaughtUp(r, i, v)
    && NodeAt(r, i, v).lastApplied == |xs| && xs <= LogAt(r, i, v)
  }

  /** A node that has applied its whole log has caught up. */
  lemma AllAppliedCaughtUp(cfg: Config, r: Run, i: nat, v: NodeID)
    requires SafeRun(cfg, r) && In(r, i, v) && NodeAt(r, i, v).lastApplied == |LogAt(r, i, v)|
    ensures CaughtUp(r, i, v)
  {
    var hs := Histories(cfg, r);
    NodeFacts(cfg, r, hs, i, v);
    StoreInvAlways(cfg, r, hs, i, v);
  }

  ghost predicate StoreRight(r: Run, i: nat, v: NodeID, xs: Entries) {
    In(r, i, v) ==> NodeAt(r, i, v).store == Fold(map[], xs)
  }

  lemma ReplayableRight(cfg: Config, r: Run, i: nat, v: NodeID, xs: Entries)
    requires SafeRun(cfg, r) && HasApplied(r, i, v, xs) && Replay.Replayable(xs)
    ensures StoreRight(r, i, v, xs)
  {
    assert LogAt(r, i, v)[..|xs|] == xs;
    StoreIsFoldAfterRestarts(cfg, r, i, v);
  }

  /** In a cluster whose stores survive crashes, for any operations and keys: whatever the values, every
      node that has caught up holds the store of one pass, over all runs, exactly when every key with two
      CASes or more also has a Put or a Delete. */
  lemma RestartsKeepStoresIff(cfg: Config, cmds: seq<Command>)
    requires cfg.Valid() && SafeSize(|cfg.nodes|) && Sound(cfg) && |cfg.nodes| >= 2 && cfg.persistentStore
    ensures Replay.Replayable(Written(cmds)) <==>
            forall r, i: nat, v, cmds' ::
              SafeRun(cfg, r) && Replay.SameShape(Written(cmds), Written(cmds')) && HasApplied(r, i, v, Written(cmds')) ==>
              StoreRight(r, i, v, Written(cmds'))
  {
    if Replay.Replayable(Written(cmds)) {
      forall r, i: nat, v, cmds' |
        SafeRun(cfg, r) && Replay.SameShape(Written(cmds), Written(cmds')) && HasApplied(r, i, v, Written(cmds'))
        ensures StoreRight(r, i, v, Written(cmds'))
      {
        Replay.ShapeReplayable(Written(cmds), Written(cmds'));
        ReplayableRight(cfg, r, i, v, Written(cmds'));
      }
    } else {
      var r, v, cmds' := StoreGoesWrong(cfg, cmds);
    }
  }

  lemma StoreGoesWrong(cfg: Config, cmds: seq<Command>) returns (r: Run, w: NodeID, cmds': seq<Command>)
    requires cfg.Valid() && SafeSize(|cfg.nodes|) && Sound(cfg) && |cfg.nodes| >= 2 && cfg.persistentStore
    requires !Replay.Replayable(Written(cmds))
    ensures SafeRun(cfg, r) && Replay.SameShape(Written(cmds), Written(cmds'))
    ensures HasApplied(r, |r.labels|, w, Written(cmds')) && !StoreRight(r, |r.labels|, w, Written(cmds'))
  {
    var v :| v in cfg.nodes;
    w := SomePeer(cfg, v);
    var c;
    c, cmds' := RestartedStoresDiffer(cfg, v, w, cmds);
    r :| EndsIn(cfg, r, c);
    SeqOfFromSeq(Written(cmds'));
    AllAppliedCaughtUp(cfg, r, |r.labels|, w);
  }

  lemma SomePeer(cfg: Config, v: NodeID) returns (w: NodeID)
    requires v in cfg.nodes && |cfg.nodes| >= 2
    ensures w in cfg.Peers(v)
  {
    assert |cfg.nodes - {v}| == |cfg.nodes| - 1;
    assert cfg.Peers(v) != {};
    w :| w in cfg.Peers(v);
  }

  /** Two commands that do it: a CAS from [1] to [2], then one from nothing to [1]. */
  lemma CasBreaksReplay(cfg: Config, v: NodeID, w: NodeID) returns (c: State)
    requires cfg.Valid() && cfg.persistentStore && v in cfg.nodes && w in cfg.Peers(v) && |cfg.nodes| >= 2
    ensures At(cfg, c) && c.nodes[v].lastApplied == c.nodes[w].lastApplied == 3 && c.nodes[v].log == c.nodes[w].log
    ensures c.nodes[v].store == map["x" := [1]] && c.nodes[w].store == map["x" := [2]]
  {
    var cmds := [Command(Cas, "x", [2], [1]), Command(Cas, "x", [1], [])];
    var xs := Written(cmds);
    assert xs == [LogEntry(1, 1, NOOP), LogEntry(2, 1, cmds[0]), LogEntry(3, 1, cmds[1])];
    FoldThree(map[], xs);
    FoldThree(map["x" := [1]], xs);
    c := OnceAndTwice(cfg, v, w, cmds);
  }

  lemma FoldThree(s: Store, xs: Entries)
    requires |xs| == 3
    ensures Fold(s, xs) ==
            var s1 := ApplyCommand(s, xs[0].command).store;
            var s2 := ApplyCommand(s1, xs[1].command).store;
            ApplyCommand(s2, xs[2].command).store
  {
    var two, one := xs[..2], xs[..1];
    assert two[..1] == one && one[..0] == [];
    assert Fold(s, one) == ApplyCommand(Fold(s, []), xs[0].command).store;
    assert Fold(s, two) == ApplyCommand(Fold(s, one), xs[1].command).store;
  }
}
