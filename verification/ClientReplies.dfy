/** What a client that waits for its command is told. Waiting calls are kept by log index and survive a loss
    of leadership, so the answer may be about another command. */
module ClientReplies {
  import opened Types
  import opened LogModel
  import opened StateMachine
  import opened NodeModel
  import opened Quorum
  import opened Cluster
  import opened History
  import opened LogHistory
  import opened LogSafety
  import opened LogRuns
  import opened Safety
  import opened Scenario
  import ElectionSafety
  import LogShapes
  import PairLogs
  import Replay
  import Splice
  import StoreSafety

  /** The entries whose clients a call of the apply loop answers. */
  ghost predicate Answered(n: Node, k: nat) {
    n.lastApplied < k <= ApplyCommitted(n).lastApplied && k in n.log.entries
  }

  /** The waiting calls of a node, by index, after a step: what each of them proposed. A call that gives up
      leaves the table too; nobody is told then. */
  ghost function WaitingAfter(waiting: map<nat, LogEntry>, n: Node, ev: Event): map<nat, LogEntry> {
    match ev
    case ClientCommand(c) =>
      if n.role != Leader then waiting
      else waiting[LastIndex(n.log) + 1 := LogEntry(LastIndex(n.log) + 1, n.currentTerm, c)]
    case Apply => waiting - (set k | k in waiting && Answered(n, k))
    case Crash => map[]
    case _ => waiting
  }

  ghost function Waiting(r: Run, i: nat, v: NodeID): map<nat, LogEntry>
    requires i <= |r.labels| < |r.states|
  {
    if i == 0 then map[]
    else if r.labels[i - 1].node != v || v !in r.states[i - 1].nodes then Waiting(r, i - 1, v)
    else WaitingAfter(Waiting(r, i - 1, v), r.states[i - 1].nodes[v], r.labels[i - 1].event)
  }

  /** At step `j` the call that waits for index `k` is told how its command fared. */
  ghost predicate Told(r: Run, j: nat, v: NodeID, k: nat) {
    && j < |r.labels| < |r.states| && r.labels[j] == Label(v, Apply) && In(r, j, v)
    && k in Waiting(r, j, v) && Answered(NodeAt(r, j, v), k)
  }

  /** What it is told is about the command it proposed. */
  ghost predicate ToldRight(r: Run, j: nat, v: NodeID, k: nat)
    requires Told(r, j, v, k)
  {
    NodeAt(r, j, v).log.entries[k] == Waiting(r, j, v)[k]
  }

  // ---------------------------------------------------------------------
  // When the answer is about the command proposed
  // ---------------------------------------------------------------------

  /** At point `i` node `v` leads the term of `e` and holds it at index `k`. */
  ghost predicate Proposed(r: Run, i: nat, v: NodeID, k: nat, e: LogEntry) {
    && In(r, i, v) && NodeAt(r, i, v).role == Leader && NodeAt(r, i, v).currentTerm == e.term
    && 1 <= k <= |LogAt(r, i, v)| && LogAt(r, i, v)[k - 1] == e
  }

  lemma {:induction false} WaitingWasProposed(cfg: Config, r: Run, j: nat, v: NodeID, k: nat) returns (i: nat)
    requires LogRun(cfg, r) && j <= |r.labels| && k in Waiting(r, j, v)
    ensures i <= j && Proposed(r, i, v, k, Waiting(r, j, v)[k])
  {
    assert j > 0;
    assert StepAt(cfg, r, j - 1);
    if k in Waiting(r, j - 1, v) && Waiting(r, j - 1, v)[k] == Waiting(r, j, v)[k] {
      i := WaitingWasProposed(cfg, r, j - 1, v, k);
    } else {
      i := j;
      JustProposed(cfg, r, j - 1, v, k);
    }
  }

  lemma JustProposed(cfg: Config, r: Run, i: nat, v: NodeID, k: nat)
    requires LogRun(cfg, r) && i < |r.labels| && r.labels[i].node == v && In(r, i, v)
    requires k in Waiting(r, i + 1, v) && !(k in Waiting(r, i, v) && Waiting(r, i, v)[k] == Waiting(r, i + 1, v)[k])
    ensures Proposed(r, i + 1, v, k, Waiting(r, i + 1, v)[k])
  {
    assert StepAt(cfg, r, i);
    LogShapes.LogShape(cfg, r, i, v);
    var xs, n := LogAt(r, i, v), NodeAt(r, i, v);
    var e := LogEntry(|xs| + 1, n.currentTerm, r.labels[i].event.command);
    FromSeqReads(xs);
    FromSeqAppend(xs, e);
    SeqOfFromSeq(xs + [e]);
  }

  /** The exact condition, which the code could check: the entry applied has the term of the proposal. It
      is met, in particular, while the node still leads that term. */
  lemma ToldRightIff(cfg: Config, r: Run, j: nat, v: NodeID, k: nat)
    requires LogRun(cfg, r) && Told(r, j, v, k)
    ensures ToldRight(r, j, v, k) <==> NodeAt(r, j, v).log.entries[k].term == Waiting(r, j, v)[k].term
    ensures NodeAt(r, j, v).role == Leader && NodeAt(r, j, v).currentTerm == Waiting(r, j, v)[k].term ==> ToldRight(r, j, v, k)
  {
    var i := WaitingWasProposed(cfg, r, j, v, k);
    var e, xs, ys := Waiting(r, j, v)[k], LogAt(r, i, v), LogAt(r, j, v);
    LogShapes.LogShape(cfg, r, j, v);
    if ys[k - 1].term == e.term {
      LogMatching(cfg, r, i, j, v, v, k - 1);
      assert xs[..k][k - 1] == ys[..k][k - 1];
    }
    if NodeAt(r, j, v).role == Leader && NodeAt(r, j, v).currentTerm == e.term { StillThere(cfg, r, i, j, v); }
  }

  /** While a node leads a term its log only grows. */
  lemma StillThere(cfg: Config, r: Run, i: nat, j: nat, v: NodeID)
    requires LogRun(cfg, r) && i <= j && In(r, i, v) && In(r, j, v)
    requires NodeAt(r, i, v).role == NodeAt(r, j, v).role == Leader && NodeAt(r, i, v).currentTerm == NodeAt(r, j, v).currentTerm
    ensures LogAt(r, i, v) <= LogAt(r, j, v)
  {
    var hs := Histories(cfg, r);
    LeaderLogLater(cfg, r, hs, i, j, v);
    NodeFacts(cfg, r, hs, j, v);
  }

  /** What the apply loop sends to the call that waits for index `k`: whether the entry there succeeded. */
  function Answer(n: Node, k: nat): bool
    requires n.lastApplied < k && k in n.log.entries && forall i :: n.lastApplied < i < k ==> i in n.log.entries
    decreases k - n.lastApplied
  {
    var i := n.lastApplied + 1;
    var applied := ApplyCommand(n.store, n.log.entries[i].command);
    if i == k then applied.ok else Answer(n.(lastApplied := i, store := applied.store), k)
  }

  lemma {:induction false} AnswerIs(n: Node, xs: Entries, k: nat)
    requires n.log == FromSeq(xs) && n.lastApplied < k <= |xs|
    ensures Answer(n, k) == ApplyCommand(Fold(n.store, xs[n.lastApplied..k - 1]), xs[k - 1].command).ok
    decreases k - n.lastApplied
  {
    var i := n.lastApplied;
    if i + 1 == k {
      assert xs[i..k - 1] == [];
    } else {
      var s1 := ApplyCommand(n.store, xs[i].command).store;
      AnswerIs(n.(lastApplied := i + 1, store := s1), xs, k);
      var e := [xs[i]];
      assert xs[i..k - 1] == e + xs[i + 1..k - 1];
      Replay.FoldConcat(n.store, e, xs[i + 1..k - 1]);
      assert Fold(n.store, e) == s1 by { assert e[..0] == []; }
    }
  }

  /** A client is told of success, where the terms agree, exactly when its operation is a no-op, a Put or a
      Delete, or a CAS that expects what its key holds after all commands before it; and the key then
      holds what the operation makes of that. */
  lemma SuccessMeans(cfg: Config, r: Run, j: nat, v: NodeID, k: nat)
    requires SafeRun(cfg, r) && Told(r, j, v, k) && StoreSafety.OnePass(cfg, r, j, v)
    requires NodeAt(r, j, v).log.entries[k].term == Waiting(r, j, v)[k].term
    ensures k <= |LogAt(r, j, v)| && forall i :: NodeAt(r, j, v).lastApplied < i < k ==> i in NodeAt(r, j, v).log.entries
    ensures var c, before := Waiting(r, j, v)[k].command, LogAt(r, j, v)[..k - 1];
            && (Answer(NodeAt(r, j, v), k) <==> Replay.Succeeds(c, Replay.KeyFold(None, before, c.key)))
            && Replay.KeyFold(None, LogAt(r, j, v)[..k], c.key) == Replay.Effect(Replay.KeyFold(None, before, c.key), c, c.key)
  {
    var n, xs := NodeAt(r, j, v), LogAt(r, j, v);
    LogShapes.LogShape(cfg, r, j, v);
    ToldRightIff(cfg, r, j, v, k);
    StoreSafety.StoreIsFold(cfg, r, j, v);
    AnswerOfAll(n, xs, k);
    assert xs[..k][..k - 1] == xs[..k - 1];
  }

  lemma AnswerOfAll(n: Node, xs: Entries, k: nat)
    requires n.log == FromSeq(xs) && n.lastApplied < k <= |xs| && n.store == Fold(map[], xs[..n.lastApplied])
    ensures var c := xs[k - 1].command;
            Answer(n, k) <==> Replay.Succeeds(c, Replay.KeyFold(None, xs[..k - 1], c.key))
  {
    var c, before := xs[k - 1].command, Fold(map[], xs[..k - 1]);
    AnswerIs(n, xs, k);
    assert xs[..k - 1] == xs[..n.lastApplied] + xs[n.lastApplied..k - 1];
    Replay.FoldConcat(map[], xs[..n.lastApplied], xs[n.lastApplied..k - 1]);
    Replay.CommandAnswers(before, c);
    Replay.EntryOfFold(map[], xs[..k - 1], c.key);
  }

  // ---------------------------------------------------------------------
  // With one or two nodes
  // ---------------------------------------------------------------------

  lemma MergeGrows(xs: Entries, prev: nat, entries: Entries)
    requires prev <= |xs| && !Splice.Conflicts(xs, prev, entries)
    ensures xs <= Splice.Merge(xs, prev, entries)
  {
    var k := Splice.Agreeing(xs, prev, entries);
    if k < |entries| { assert xs[..prev + k] == xs; }
  }

  lemma StretchGrows(cfg: Config, h: History, v: NodeID, xs: Entries, req: AppendRequest)
    requires Stretch(cfg, h, req) && PairLogs.Latest(h, req.term) && PairLogs.Behind(h, v, xs) && req.prevLogIndex <= |xs|
    ensures xs <= Splice.Merge(xs, req.prevLogIndex, req.entries)
  {
    PairLogs.PrefixMeetsNoConflict(xs, LeaderLog(h, req.term), req.prevLogIndex, req.entries);
    MergeGrows(xs, req.prevLogIndex, req.entries);
  }

  /** No request that can arrive cuts the log. */
  lemma PairKeepsLog(cfg: Config, h: History, v: NodeID, n: Node, req: AppendRequest)
    requires Ready(cfg, h, v, n) && |cfg.nodes| <= 2 && RequestOk(cfg, h, req) && PairLogs.Behind(h, v, Seq(n.log))
    ensures Seq(n.log) <= Seq(HandleAppend(cfg.variant, v, n, req).0.log)
  {
    PairLogs.PairAsIntended(cfg, h, v, n, req);
    if HandleAppend(INTENDED, v, n, req).1.success {
      PairAccepts(cfg, h, v, n, req);
    } else {
      RefusedIs(INTENDED, v, n, req);
    }
  }

  lemma PairAccepts(cfg: Config, h: History, v: NodeID, n: Node, req: AppendRequest)
    requires Ready(cfg, h, v, n) && |cfg.nodes| <= 2 && RequestOk(cfg, h, req) && PairLogs.Behind(h, v, Seq(n.log))
    requires HandleAppend(INTENDED, v, n, req).1.success
    ensures Seq(n.log) <= Seq(HandleAppend(INTENDED, v, n, req).0.log)
  {
    var xs := Seq(n.log);
    GroundedPositive(h, xs);
    if Hopeless(h, req) { HopelessRefused(h, v, n, req, xs); }
    RequestIndexed(cfg, h, req);
    AcceptPlain(v, n, req, xs);
    PairLogs.LatestIs(cfg, h, v, n, req.term);
    StretchGrows(cfg, h, v, xs, req);
    SeqOfFromSeq(Splice.Merge(xs, req.prevLogIndex, req.entries));
  }

  lemma PairReceives(cfg: Config, h: History, c: State, a: Label)
    requires cfg.Valid() && SafeSize(|cfg.nodes|) && |cfg.nodes| <= 2 && LogsInv(cfg, h, c) && PairLogs.PairInv(cfg, h, c)
    requires Enabled(cfg, c, a.node, a.event) && a.event.RecvAppend?
    ensures Seq(c.nodes[a.node].log) <= Seq(Next(cfg, c, a).nodes[a.node].log)
  {
    hide NodeLogs, ElectionSafety.NodeVotes, HistoryLogs, PairLogs.Behind;
    ReceivedIsOk(cfg, h, c, a);
    PairKeepsLog(cfg, h, a.node, c.nodes[a.node], a.event.append);
  }

  lemma OwnStepKeepsLog(cfg: Config, v: NodeID, n: Node, ev: Event)
    requires Plain(n.log) && !ev.RecvAppend?
    ensures Seq(n.log) <= Seq(NodeStep(cfg, v, n, ev).0.log)
  {
    if Logging(ev) { StoreSafety.AppendingKeepsPrefix(cfg, v, n, ev); } else { OtherStepsKeepLog(cfg, v, n, ev); }
  }

  lemma PairStepKeepsLog(cfg: Config, r: Run, i: nat, v: NodeID)
    requires IsRun(cfg, r) && |cfg.nodes| <= 2 && SafeSize(|cfg.nodes|) && i < |r.labels| && In(r, i, v)
    ensures In(r, i + 1, v) && LogAt(r, i, v) <= LogAt(r, i + 1, v)
  {
    hide LogsInv, PairLogs.PairInv;
    assert StepAt(cfg, r, i);
    if r.labels[i].node == v {
      if r.labels[i].event.RecvAppend? {
        var hs := Histories(cfg, r);
        LogsInvAlways(cfg, r, hs, i);
        PairReceives(cfg, hs[i], r.states[i], r.labels[i]);
      } else {
        LogShapes.LogShape(cfg, r, i, v);
        OwnStepKeepsLog(cfg, v, NodeAt(r, i, v), r.labels[i].event);
      }
    }
  }

  lemma {:induction false} PairLogGrows(cfg: Config, r: Run, i: nat, j: nat, v: NodeID)
    requires IsRun(cfg, r) && |cfg.nodes| <= 2 && SafeSize(|cfg.nodes|) && i <= j <= |r.labels| && In(r, i, v)
    ensures In(r, j, v) && LogAt(r, i, v) <= LogAt(r, j, v)
  {
    if i < j {
      PairLogGrows(cfg, r, i, j - 1, v);
      PairStepKeepsLog(cfg, r, j - 1, v);
    }
  }

  lemma PairToldRight(cfg: Config, r: Run, j: nat, v: NodeID, k: nat)
    requires IsRun(cfg, r) && |cfg.nodes| <= 2 && SafeSize(|cfg.nodes|) && Told(r, j, v, k)
    ensures ToldRight(r, j, v, k)
  {
    var i := WaitingWasProposed(cfg, r, j, v, k);
    PairLogGrows(cfg, r, i, j, v);
    LogShapes.LogShape(cfg, r, j, v);
  }

  // ---------------------------------------------------------------------
  // With three nodes or more
  // ---------------------------------------------------------------------

  /** `v` and `e` lead one after the other, elected by the rest. */
  ghost predicate Roles(cfg: Config, v: NodeID, e: NodeID, rest: set<NodeID>) {
    && cfg.Valid() && v != e && v !in rest && e !in rest && Elects(cfg, v, rest) && Elects(cfg, e, rest)
    && 1 + |rest| >= CommitMajority(|cfg.Peers(e)|)
  }

  lemma RolesExist(cfg: Config) returns (v: NodeID, e: NodeID, rest: set<NodeID>)
    requires cfg.Valid() && |cfg.nodes| >= 3
    ensures Roles(cfg, v, e, rest)
  {
    v :| v in cfg.nodes;
    assert |cfg.nodes - {v}| == |cfg.nodes| - 1;
    e :| e in cfg.nodes - {v};
    assert |cfg.nodes - {e}| == |cfg.nodes| - 1;
    rest := cfg.nodes - {v} - {e};
    assert |rest| == |cfg.nodes| - 2;
  }

  const MINE := LogEntry(2, 1, Command(Put, "x", [1], []))
  const THEIRS := LogEntry(2, 2, Command(Put, "x", [2], []))
  const FIRST: Entries := [Entry(1, 1)]
  const LATER: Entries := [Entry(1, 2), THEIRS]

  function Late(e: NodeID): AppendRequest {
    AppendRequest(2, e, 0, 0, LATER, 2)
  }

  /** `v` leads term 1, and `e` leads term 2 with a log it has committed. */
  lemma TwoTerms(cfg: Config, v: NodeID, e: NodeID, rest: set<NodeID>) returns (c: State, ls: LeaderState)
    requires Roles(cfg, v, e, rest)
    ensures At(cfg, c) && c.nodes[v] == Leading(v, 1, FromSeq(FIRST), NewMaps(cfg, v, 0), 0)
    ensures c.nodes[e] == Leading(e, 2, FromSeq(LATER), ls, 2) && Lookup(ls.nextIndex, v) == 1
  {
    hide Reachable;
    c := SecondElected(cfg, v, e, rest);
    c := ProposeMove(cfg, c, e, 2, [Entry(1, 2)], NewMaps(cfg, e, 0), THEIRS.command);
    assert [Entry(1, 2)] + [THEIRS] == LATER;
    c, ls := Replicate(cfg, c, e, 2, LATER, rest);
  }

  lemma SecondElected(cfg: Config, v: NodeID, e: NodeID, rest: set<NodeID>) returns (c: State)
    requires Roles(cfg, v, e, rest)
    ensures At(cfg, c) && c.nodes[v] == Leading(v, 1, FromSeq(FIRST), NewMaps(cfg, v, 0), 0)
    ensures c.nodes[e] == Leading(e, 2, FromSeq([Entry(1, 2)]), NewMaps(cfg, e, 0), 0) && AllAre(c, rest, Voter(2, e))
  {
    EmptyReads();
    c := Start(cfg);
    c := StandMove(cfg, c, v, 0, NO_NODE, EMPTY, NO_NODE);
    c := ElectFirst(cfg, c, v, 1, rest);
    c := VoteMove(cfg, c, e, VoteRequest(1, v, 0, 0), EMPTY, NO_NODE);
    c := StandMove(cfg, c, e, 1, v, EMPTY, NO_NODE);
    c := ElectFirst(cfg, c, e, 2, rest);
  }

  /** The entry loop puts the later leader's command in place of the one proposed, whichever loop it is. */
  lemma Overwritten(reread: bool)
    ensures NodeModel.Splice(reread, FromSeq(FIRST + [MINE]), 0, LATER) ==
            if reread then FromSeq(LATER) else Splice.Without(FromSeq(LATER), 1)
  {
    var xs := FIRST + [MINE];
    assert Splice.Agreeing(xs, 0, LATER) == 0;
    assert Splice.Merge(xs, 0, LATER) == LATER;
    if reread { Splice.IntendedIsMerge(xs, 0, LATER); } else { Splice.WrittenDropsConflict(xs, 0, LATER); }
  }

  /** The deposed leader after the later leader's request. */
  lemma Deposed(variant: Variant, v: NodeID, e: NodeID, n: Node)
    requires n.currentTerm == 1 && n.log == FromSeq(FIRST + [MINE]) && n.commitIndex == n.lastApplied == 0
    ensures var n' := HandleAppend(variant, v, n, Late(e)).0;
            && n'.commitIndex == 2 && n'.lastApplied == 0
            && n'.log == NodeModel.Splice(variant.rereadTerm, n.log, 0, LATER)
  {
  }

  /** The apply loop answers for index 2 at once, or passes over the missing index 1 first. */
  lemma AnswersSecond(n: Node)
    requires n.commitIndex == 2 && n.lastApplied == 0 && 2 in n.log.entries
    ensures if 1 in n.log.entries then Answered(n, 2)
            else !Answered(n, 2) && Answered(ApplyCommitted(n), 2) && ApplyCommitted(n).log == n.log
  {
    if 1 in n.log.entries {
      var n1 := n.(lastApplied := 1, store := ApplyCommand(n.store, n.log.entries[1].command).store);
      var n2 := n1.(lastApplied := 2, store := ApplyCommand(n1.store, n.log.entries[2].command).store);
      assert ApplyCommitted(n1) == ApplyCommitted(n2) == n2;
    }
  }

  /** A run in which `v` takes a command, is overruled, and applies twice. */
  lemma MisledRun(cfg: Config) returns (r: Run, b: nat, v: NodeID, e: NodeID)
    requires cfg.Valid() && |cfg.nodes| >= 3
    ensures MisledSteps(cfg, r, b, v, e)
  {
    var rest, ls;
    v, e, rest := RolesExist(cfg);
    var c;
    c, ls := TwoTerms(cfg, v, e, rest);
    var req := RequestFor(e, v, 2, LATER, ls, 2);
    assert LATER[0..] == LATER;
    c := SendMove(cfg, c, e, v, Late(e));
    r := FourMore(cfg, c, v, e);
    b := |r.labels| - 4;
  }

  lemma FourMore(cfg: Config, c: State, v: NodeID, e: NodeID) returns (r: Run)
    requires At(cfg, c) && v in cfg.nodes && AppendReq(v, Late(e)) in c.msgs
    ensures IsRun(cfg, r) && |r.labels| >= 4 && r.states[|r.labels| - 4] == c
    ensures r.labels[|r.labels| - 4..] == [Label(v, ClientCommand(MINE.command)), Label(v, RecvAppend(Late(e))), Label(v, Apply), Label(v, Apply)]
  {
    var c1, a0, a1, a2 := c, Label(v, ClientCommand(MINE.command)), Label(v, RecvAppend(Late(e))), Label(v, Apply);
    r :| EndsIn(cfg, r, c);
    r := OneMore(cfg, r, c, a0);
    c1 := Next(cfg, c1, a0);
    r := OneMore(cfg, r, c1, a1);
    c1 := Next(cfg, c1, a1);
    r := OneMore(cfg, r, c1, a2);
    c1 := Next(cfg, c1, a2);
    r := OneMore(cfg, r, c1, a2);
  }

  /** In every cluster of three nodes or more, whatever the variant, some client is told about a command
      that is not its own. */
  lemma SomeoneMisled(cfg: Config) returns (r: Run, j: nat, v: NodeID)
    requires cfg.Valid() && |cfg.nodes| >= 3
    ensures IsRun(cfg, r) && Told(r, j, v, 2) && !ToldRight(r, j, v, 2)
  {
    var b, e;
    r, b, v, e := MisledRun(cfg);
    MisledNodes(cfg, r, b, v, e);
    MisledWaits(r, b, v, e, NewMaps(cfg, v, 0));
    AnswersSecond(NodeAt(r, b + 2, v));
    j := if cfg.variant.rereadTerm then b + 2 else b + 3;
  }

  ghost predicate MisledSteps(cfg: Config, r: Run, b: nat, v: NodeID, e: NodeID) {
    && IsRun(cfg, r) && |r.labels| == b + 4
    && r.labels[b] == Label(v, ClientCommand(MINE.command)) && r.labels[b + 1] == Label(v, RecvAppend(Late(e)))
    && r.labels[b + 2] == r.labels[b + 3] == Label(v, Apply)
    && In(r, b, v) && NodeAt(r, b, v) == Leading(v, 1, FromSeq(FIRST), NewMaps(cfg, v, 0), 0)
  }

  lemma MisledNodes(cfg: Config, r: Run, b: nat, v: NodeID, e: NodeID)
    requires MisledSteps(cfg, r, b, v, e)
    ensures In(r, b + 1, v) && In(r, b + 2, v) && In(r, b + 3, v) && NodeAt(r, b + 3, v) == ApplyCommitted(NodeAt(r, b + 2, v))
    ensures var n := NodeAt(r, b + 2, v);
            && n.commitIndex == 2 && n.lastApplied == 0 && 2 in n.log.entries && n.log.entries[2] == THEIRS
            && (cfg.variant.rereadTerm <==> 1 in n.log.entries)
  {
    assert StepAt(cfg, r, b) && StepAt(cfg, r, b + 1) && StepAt(cfg, r, b + 2);
    ProposesMine(v, NewMaps(cfg, v, 0));
    Overwritten(cfg.variant.rereadTerm);
    Deposed(cfg.variant, v, e, Propose(NodeAt(r, b, v), MINE.command));
  }

  lemma ProposesMine(v: NodeID, ls: LeaderState)
    ensures Propose(Leading(v, 1, FromSeq(FIRST), ls, 0), MINE.command) == Leading(v, 1, FromSeq(FIRST + [MINE]), ls, 0)
    ensures LastIndex(FromSeq(FIRST)) == 1
  {
    FromSeqReads(FIRST);
    FromSeqAppend(FIRST, MINE);
  }

  lemma MisledWaits(r: Run, b: nat, v: NodeID, e: NodeID, ls: LeaderState)
    requires |r.labels| == b + 4 < |r.states| && In(r, b, v) && In(r, b + 1, v) && In(r, b + 2, v)
    requires r.labels[b] == Label(v, ClientCommand(MINE.command)) && r.labels[b + 1] == Label(v, RecvAppend(Late(e)))
    requires r.labels[b + 2] == Label(v, Apply) && NodeAt(r, b, v) == Leading(v, 1, FromSeq(FIRST), ls, 0)
    ensures 2 in Waiting(r, b + 2, v) && Waiting(r, b + 2, v)[2] == MINE
    ensures !Answered(NodeAt(r, b + 2, v), 2) ==> 2 in Waiting(r, b + 3, v) && Waiting(r, b + 3, v)[2] == MINE
  {
    ProposesMine(v, ls);
    hide HandleAppend, ApplyCommitted, Propose;
    assert Waiting(r, b + 1, v) == WaitingAfter(Waiting(r, b, v), NodeAt(r, b, v), ClientCommand(MINE.command));
    assert Waiting(r, b + 2, v) == WaitingAfter(Waiting(r, b + 1, v), NodeAt(r, b + 1, v), RecvAppend(Late(e)));
    assert Waiting(r, b + 3, v) == WaitingAfter(Waiting(r, b + 2, v), NodeAt(r, b + 2, v), Apply);
  }

  /** Over all runs of a cluster, clients are told about their own commands exactly when it has at most two
      nodes. */
  lemma ClientsToldRightIff(cfg: Config)
    requires cfg.Valid()
    ensures |cfg.nodes| <= 2 <==> forall r, j: nat, v, k: nat :: IsRun(cfg, r) && Told(r, j, v, k) ==> ToldRight(r, j, v, k)
  {
    if |cfg.nodes| <= 2 {
      forall r, j: nat, v, k: nat | IsRun(cfg, r) && Told(r, j, v, k) ensures ToldRight(r, j, v, k) {
        PairToldRight(cfg, r, j, v, k);
      }
    } else {
      var r, j, v := SomeoneMisled(cfg);
    }
  }
}
