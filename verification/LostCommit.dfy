/** With the entry loop as written, in every odd cluster of three nodes or more, a leader of a later term
    can lack a committed entry: the dropped entry leaves a hole that is acknowledged as present. Checking
    the term of replies does not prevent it. */
module LostCommit {
  import opened Types
  import opened LogModel
  import opened NodeModel
  import opened Quorum
  import opened Cluster
  import opened Scenario
  import Splice
  import Replay

  /** `x` loses an entry, `y` commits it, the nodes of `held` hold it, and those of `empty` only vote. */
  ghost predicate Cast(cfg: Config, x: NodeID, y: NodeID, held: set<NodeID>, empty: set<NodeID>) {
    && cfg.Valid() && !cfg.variant.rereadTerm && x != y && x !in empty && y !in empty
    && Elects(cfg, x, empty) && Elects(cfg, y, empty)
    && (forall v :: v in held ==> v in cfg.nodes && v != x && v != y && v !in empty)
  }

  /** Those that hold the entries, or claim to, are a majority with `y`. */
  ghost predicate Enough(cfg: Config, x: NodeID, y: NodeID, held: set<NodeID>) {
    1 + |held + {x}| >= CommitMajority(|cfg.Peers(y)|)
  }

  lemma CastExists(cfg: Config) returns (x: NodeID, y: NodeID, held: set<NodeID>, empty: set<NodeID>)
    requires cfg.Valid() && |cfg.nodes| % 2 == 1 && |cfg.nodes| >= 3 && !cfg.variant.rereadTerm
    ensures Cast(cfg, x, y, held, empty) && Enough(cfg, x, y, held)
  {
    x :| x in cfg.nodes;
    assert |cfg.nodes - {x}| == |cfg.nodes| - 1;
    y :| y in cfg.nodes - {x};
    assert |cfg.nodes - {y}| == |cfg.nodes| - 1;
    var rest := cfg.nodes - {x} - {y};
    assert |rest| == |cfg.nodes| - 2;
    held := SubsetOfSize(rest, |cfg.nodes| / 2 - 1);
    empty := rest - held;
    assert rest == held + empty && |rest| == |held| + |empty|;
    assert |held + {x}| == |held| + 1;
  }

  /** In clusters of any size, all but two nodes vote for both. */
  lemma CastOfAll(cfg: Config) returns (x: NodeID, y: NodeID, empty: set<NodeID>)
    requires cfg.Valid() && |cfg.nodes| >= 3 && !cfg.variant.rereadTerm
    ensures Cast(cfg, x, y, {}, empty)
  {
    x :| x in cfg.nodes;
    assert |cfg.nodes - {x}| == |cfg.nodes| - 1;
    y :| y in cfg.nodes - {x};
    assert |cfg.nodes - {y}| == |cfg.nodes| - 1;
    empty := cfg.nodes - {x} - {y};
    assert |empty| == |cfg.nodes| - 2;
  }

  const BOTH: seq<LogEntry> := [Entry(1, 2), Entry(2, 2)]

  /** Node `x` leads term 1 and holds one entry nobody else has. */
  lemma FirstLeader(cfg: Config, x: NodeID, y: NodeID, held: set<NodeID>, empty: set<NodeID>) returns (c: State)
    requires Cast(cfg, x, y, held, empty)
    ensures At(cfg, c) && c.nodes[x] == Leading(x, 1, FromSeq([Entry(1, 1)]), NewMaps(cfg, x, 0), 0)
    ensures c.nodes[y] == Voter(0, NO_NODE) && AllAre(c, held, Voter(0, NO_NODE)) && AllAre(c, empty, Voter(1, x))
    ensures VoteReq(VoteRequest(1, x, 0, 0)) in c.msgs
  {
    EmptyReads();
    c := Start(cfg);
    c := StandMove(cfg, c, x, 0, NO_NODE, EMPTY, NO_NODE);
    c := ElectFirst(cfg, c, x, 1, empty);
  }

  /** Node `y` hears of term 1 and stands for term 2. */
  lemma SecondCandidate(cfg: Config, x: NodeID, y: NodeID, held: set<NodeID>, empty: set<NodeID>) returns (c: State)
    requires Cast(cfg, x, y, held, empty)
    ensures At(cfg, c) && c.nodes[x] == Leading(x, 1, FromSeq([Entry(1, 1)]), NewMaps(cfg, x, 0), 0)
    ensures c.nodes[y] == Campaigning(cfg.Peers(y), y, 2, EMPTY, NO_NODE, {})
    ensures AllAre(c, held, Voter(0, NO_NODE)) && AllAre(c, empty, Voter(1, x)) && VoteReq(VoteRequest(2, y, 0, 0)) in c.msgs
  {
    EmptyReads();
    c := FirstLeader(cfg, x, y, held, empty);
    c := VoteMove(cfg, c, y, VoteRequest(1, x, 0, 0), EMPTY, NO_NODE);
    c := StandMove(cfg, c, y, 1, x, EMPTY, NO_NODE);
  }

  /** Node `y` leads term 2, with two entries of its own. */
  lemma SecondLeader(cfg: Config, x: NodeID, y: NodeID, held: set<NodeID>, empty: set<NodeID>) returns (c: State)
    requires Cast(cfg, x, y, held, empty)
    ensures At(cfg, c) && c.nodes[x] == Leading(x, 1, FromSeq([Entry(1, 1)]), NewMaps(cfg, x, 0), 0)
    ensures c.nodes[y] == Leading(y, 2, FromSeq(BOTH), NewMaps(cfg, y, 0), 0)
    ensures AllAre(c, held, Voter(0, NO_NODE)) && AllAre(c, empty, Voter(2, y))
  {
    c := SecondCandidate(cfg, x, y, held, empty);
    c := ElectFirst(cfg, c, y, 2, empty);
    c := ProposeMove(cfg, c, y, 2, [Entry(1, 2)], NewMaps(cfg, y, 0), NOOP);
    assert [Entry(1, 2)] + [Entry(2, 2)] == BOTH;
  }

  // ---------------------------------------------------------------------
  // The hole
  // ---------------------------------------------------------------------

  function Sent(y: NodeID): AppendRequest {
    AppendRequest(2, y, 0, 0, BOTH, 0)
  }

  /** All that is left in the log of `x`: the entry after the one it dropped. */
  ghost const HOLED := Log(map[2 := Entry(2, 2)], START, START)

  lemma HoledReads()
    ensures LastIndex(HOLED) == 2 && LastTerm(HOLED) == 2
  {
    assert 2 in HOLED.entries;
    assert LastIndex(HOLED) in HOLED.entries;
  }

  lemma EntryDropped()
    ensures NodeModel.Splice(false, FromSeq([Entry(1, 1)]), 0, BOTH) == HOLED
  {
    hide FromSeq, NodeModel.Splice;
    var xs := [Entry(1, 1)];
    Splice.WrittenDropsConflict(xs, 0, BOTH);
    assert Splice.Agreeing(xs, 0, BOTH) == 0;
    assert Splice.Merge(xs, 0, BOTH) == BOTH;
    HoledIs();
  }

  lemma HoledIs()
    ensures Splice.Without(FromSeq(BOTH), 1) == HOLED
  {
    var l := Splice.Without(FromSeq(BOTH), 1);
    assert forall k :: k in l.entries <==> k == 2;
    assert l.entries[2] == BOTH[1];
    assert l.entries == HOLED.entries;
  }

  lemma HoleAcknowledged(v: Variant, x: NodeID, y: NodeID, ls: LeaderState)
    requires !v.rereadTerm
    ensures HandleAppend(v, x, Leading(x, 1, FromSeq([Entry(1, 1)]), ls, 0), Sent(y)) ==
            (Following(2, NO_NODE, HOLED, y), AppendResponse(2, true, x, 2, 0, 0))
  {
    FromSeqReads([Entry(1, 1)]);
    HoledReads();
    EntryDropped();
  }

  /** The nodes of `held` have taken both entries and acknowledged them. */
  lemma Replicated(cfg: Config, x: NodeID, y: NodeID, held: set<NodeID>, empty: set<NodeID>) returns (c: State)
    requires Cast(cfg, x, y, held, empty)
    ensures At(cfg, c) && c.nodes[x] == Leading(x, 1, FromSeq([Entry(1, 1)]), NewMaps(cfg, x, 0), 0)
    ensures c.nodes[y] == Leading(y, 2, FromSeq(BOTH), NewMaps(cfg, y, 0), 0)
    ensures AllAre(c, empty, Voter(2, y)) && AllAcked(cfg, c, y, 2, held, 2)
  {
    c := SecondLeader(cfg, x, y, held, empty);
    c := Spread(cfg, c, y, 2, BOTH, NewMaps(cfg, y, 0), held);
  }

  lemma TakesHole(cfg: Config, c: State, x: NodeID, y: NodeID) returns (c': State)
    requires At(cfg, c) && y in cfg.nodes && x in cfg.Peers(y) && !cfg.variant.rereadTerm
    requires c.nodes[x] == Leading(x, 1, FromSeq([Entry(1, 1)]), NewMaps(cfg, x, 0), 0)
    requires c.nodes[y] == Leading(y, 2, FromSeq(BOTH), NewMaps(cfg, y, 0), 0)
    ensures At(cfg, c') && c.msgs <= c'.msgs && c'.nodes == c.nodes[x := Following(2, NO_NODE, HOLED, y)]
    ensures Acked(cfg, c', y, 2, x, 2)
  {
    var req := RequestFor(y, x, 2, BOTH, NewMaps(cfg, y, 0), 0);
    assert BOTH[0..] == BOTH;
    var c1 := SendMove(cfg, c, y, x, Sent(y));
    HoleAcknowledged(cfg.variant, x, y, NewMaps(cfg, x, 0));
    c' := AppendMove(cfg, c1, x, Sent(y), Following(2, NO_NODE, HOLED, y), AppendResponse(2, true, x, 2, 0, 0));
    assert AckedBy(cfg, c', y, 2, x, 2, Sent(y), 2);
  }

  /** A run that ends with `x` taking the second of two entries of the leader `y`, and claiming both. */
  lemma HoledRun(cfg: Config) returns (r: Run, x: NodeID, y: NodeID)
    requires cfg.Valid() && |cfg.nodes| >= 3 && !cfg.variant.rereadTerm
    ensures AcceptsLast(cfg, r, x, Sent(y)) && y in cfg.nodes
    ensures var c, c' := r.states[|r.labels| - 1], r.states[|r.labels|];
            && HandleAppend(cfg.variant, x, c.nodes[x], Sent(y)) == (c'.nodes[x], AppendResponse(2, true, x, 2, 0, 0))
            && c'.nodes[x].log == HOLED && c'.nodes[y] == Leading(y, 2, FromSeq(BOTH), NewMaps(cfg, y, 0), 0)
  {
    var empty;
    x, y, empty := CastOfAll(cfg);
    var c := SecondLeader(cfg, x, y, {}, empty);
    var req := RequestFor(y, x, 2, BOTH, NewMaps(cfg, y, 0), 0);
    assert BOTH[0..] == BOTH;
    c := SendMove(cfg, c, y, x, Sent(y));
    HoleAcknowledged(cfg.variant, x, y, NewMaps(cfg, x, 0));
    r := AcceptRun(cfg, c, x, Sent(y));
  }

  /** Node `x` has acknowledged both entries too, and holds only the second. */
  lemma Acknowledged(cfg: Config, x: NodeID, y: NodeID, held: set<NodeID>, empty: set<NodeID>) returns (c: State)
    requires Cast(cfg, x, y, held, empty)
    ensures At(cfg, c) && c.nodes[x] == Following(2, NO_NODE, HOLED, y)
    ensures c.nodes[y] == Leading(y, 2, FromSeq(BOTH), NewMaps(cfg, y, 0), 0)
    ensures AllAre(c, empty, Voter(2, y)) && AllAcked(cfg, c, y, 2, held + {x}, 2)
  {
    var c0 := Replicated(cfg, x, y, held, empty);
    c := TakesHole(cfg, c0, x, y);
    AckedStill(cfg, c0, c, y, 2, held, 2);
  }

  /** Node `y` commits both entries. */
  lemma CommitsOnHole(cfg: Config, x: NodeID, y: NodeID, held: set<NodeID>, empty: set<NodeID>) returns (c: State, ls: LeaderState)
    requires Cast(cfg, x, y, held, empty) && Enough(cfg, x, y, held)
    ensures At(cfg, c) && c.nodes[x] == Following(2, NO_NODE, HOLED, y) && Lookup(ls.nextIndex, x) == 3
    ensures c.nodes[y] == Leading(y, 2, FromSeq(BOTH), ls, 2) && AllAre(c, empty, Voter(2, y))
  {
    NewMapsMatched(cfg.Peers(y), 0, 2);
    c := Acknowledged(cfg, x, y, held, empty);
    assert {} + (held + {x}) == held + {x};
    c, ls := CountReplies(cfg, c, y, 2, BOTH, NewMaps(cfg, y, 0), {}, NewMaps(cfg, y, 0).nextIndex, held + {x});
  }

  /** A reachable state has a leader of term 3 without the entry at index 1 that the leader of term 2
      has committed. */
  lemma CommittedEntryLost(cfg: Config) returns (c: State, x: NodeID, y: NodeID)
    requires cfg.Valid() && |cfg.nodes| % 2 == 1 && |cfg.nodes| >= 3 && !cfg.variant.rereadTerm
    ensures At(cfg, c) && x in cfg.nodes && y in cfg.nodes
    ensures c.nodes[y].currentTerm == 2 && c.nodes[y].commitIndex == 2 && 1 in c.nodes[y].log.entries
    ensures c.nodes[x].role == Leader && c.nodes[x].currentTerm == 3 && 1 !in c.nodes[x].log.entries
  {
    hide Reachable;
    var held, empty;
    x, y, held, empty := CastExists(cfg);
    HoledReads();
    var ls;
    c, ls := CommitsOnHole(cfg, x, y, held, empty);
    c := StandMove(cfg, c, x, 2, NO_NODE, HOLED, y);
    c := Elect(cfg, c, x, 3, HOLED, y, empty);
  }

  // ---------------------------------------------------------------------
  // The hole applied
  // ---------------------------------------------------------------------

  /** The node with the hole learns that both entries are committed, and passes over the one it lacks. */
  lemma HolePassedOver(variant: Variant, x: NodeID, y: NodeID)
    ensures HandleAppend(variant, x, Following(2, NO_NODE, HOLED, y), AppendRequest(2, y, 2, 2, [], 2)) ==
            (Following(2, NO_NODE, HOLED, y).(commitIndex := 2), AppendResponse(2, true, x, 2, 0, 0))
    ensures ApplyCommitted(Following(2, NO_NODE, HOLED, y).(commitIndex := 2)) ==
            Following(2, NO_NODE, HOLED, y).(commitIndex := 2, lastApplied := 1)
  {
    HoledReads();
  }

  lemma HearsOfCommit(cfg: Config, c: State, x: NodeID, y: NodeID, ls: LeaderState) returns (c': State)
    requires At(cfg, c) && y in cfg.nodes && x in cfg.Peers(y) && Lookup(ls.nextIndex, x) == 3
    requires c.nodes[x] == Following(2, NO_NODE, HOLED, y) && c.nodes[y] == Leading(y, 2, FromSeq(BOTH), ls, 2)
    ensures At(cfg, c') && c'.nodes[y] == c.nodes[y]
    ensures c'.nodes[x] == Following(2, NO_NODE, HOLED, y).(commitIndex := 2, lastApplied := 1)
  {
    var req := RequestFor(y, x, 2, BOTH, ls, 2);
    assert BOTH[2..] == [];
    HolePassedOver(cfg.variant, x, y);
    c' := SendMove(cfg, c, y, x, req);
    c' := AppendMove(cfg, c', x, req, Following(2, NO_NODE, HOLED, y).(commitIndex := 2), AppendResponse(2, true, x, 2, 0, 0));
    c' := ApplyMove(cfg, c', x);
  }

  /** A reachable state in which one node has applied an entry that another has passed over. */
  lemma PassedOver(cfg: Config) returns (c: State, x: NodeID, y: NodeID)
    requires cfg.Valid() && |cfg.nodes| % 2 == 1 && |cfg.nodes| >= 3 && !cfg.variant.rereadTerm
    ensures At(cfg, c) && x in cfg.nodes && y in cfg.nodes
    ensures c.nodes[x].lastApplied == 1 && c.nodes[x].log == HOLED
    ensures c.nodes[y].lastApplied == 2 && c.nodes[y].log == FromSeq(BOTH)
  {
    var held, empty, ls;
    x, y, held, empty := CastExists(cfg);
    c, ls := CommitsOnHole(cfg, x, y, held, empty);
    c := HearsOfCommit(cfg, c, x, y, ls);
    Replay.ApplyPlain(c.nodes[y], BOTH);
    c := ApplyMove(cfg, c, y);
  }
}
