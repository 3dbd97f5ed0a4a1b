/** With the entry loop repaired but replies accepted in any term, in every odd cluster of five nodes or
    more, a leader of a later term can hold another entry in place of a committed one: acknowledgements
    from an earlier leadership of the same node are counted for entries they never covered. */
module StaleReply {
  import opened Types
  import opened LogModel
  import opened NodeModel
  import opened Quorum
  import opened Cluster
  import opened Scenario
  import Replay
  import Splice

  type Entries = seq<LogEntry>

  /** `a` leads twice, `e` leads in between, the nodes of `stale` acknowledge the first term of `a`, and
      those of `empty` only vote. */
  ghost predicate Cast(cfg: Config, a: NodeID, e: NodeID, stale: set<NodeID>, empty: set<NodeID>) {
    && cfg.Valid() && cfg.variant == Variant(true, false) && a != e && a !in empty && e !in empty
    && Elects(cfg, a, empty) && Elects(cfg, e, empty)
    && (forall v :: v in stale ==> v in cfg.nodes && v != a && v != e && v !in empty)
  }

  /** The old acknowledgements are too few to commit, and one more is enough. */
  ghost predicate OneShort(cfg: Config, a: NodeID, e: NodeID, stale: set<NodeID>) {
    1 + |stale| < CommitMajority(|cfg.Peers(a)|) <= 1 + |stale + {e}|
  }

  lemma CastExists(cfg: Config) returns (a: NodeID, e: NodeID, stale: set<NodeID>, empty: set<NodeID>)
    requires cfg.Valid() && |cfg.nodes| % 2 == 1 && |cfg.nodes| >= 5 && cfg.variant == Variant(true, false)
    ensures Cast(cfg, a, e, stale, empty) && OneShort(cfg, a, e, stale)
    ensures stale != {} && forall b :: b in stale ==> Elects(cfg, b, empty)
  {
    a :| a in cfg.nodes;
    assert |cfg.nodes - {a}| == |cfg.nodes| - 1;
    e :| e in cfg.nodes - {a};
    var rest := cfg.nodes - {a} - {e};
    assert |rest| == |cfg.nodes| - 2;
    stale := SubsetOfSize(rest, |cfg.nodes| / 2 - 1);
    empty := rest - stale;
    assert rest == stale + empty && |rest| == |stale| + |empty|;
    assert |stale + {e}| == |stale| + 1;
    forall v | v in cfg.nodes - empty ensures Elects(cfg, v, empty) {
      assert |cfg.nodes - {v}| == |cfg.nodes| - 1;
    }
  }

  /** What `a` wrote in term 1, what `e` wrote in term 2, and what `a` made of that in term 3. */
  const OLD: Entries := [Entry(1, 1), Entry(2, 1)]
  const OTHER: Entries := [Entry(1, 2)]
  const NEW: Entries := [Entry(1, 2), Entry(2, 3)]
  const LATER: Entries := [Entry(1, 1), Entry(2, 1), Entry(3, 4)]

  // ---------------------------------------------------------------------
  // The acknowledgements
  // ---------------------------------------------------------------------

  lemma FirstTerm(cfg: Config, a: NodeID, e: NodeID, stale: set<NodeID>, empty: set<NodeID>) returns (c: State)
    requires Cast(cfg, a, e, stale, empty)
    ensures At(cfg, c) && c.nodes[a] == Leading(a, 1, FromSeq([Entry(1, 1)]), NewMaps(cfg, a, 0), 0)
    ensures c.nodes[e] == Voter(0, NO_NODE) && AllAre(c, stale, Voter(0, NO_NODE)) && AllAre(c, empty, Voter(1, a))
    ensures VoteReq(VoteRequest(1, a, 0, 0)) in c.msgs
  {
    EmptyReads();
    c := Start(cfg);
    c := StandMove(cfg, c, a, 0, NO_NODE, EMPTY, NO_NODE);
    c := ElectFirst(cfg, c, a, 1, empty);
  }

  lemma FirstLeader(cfg: Config, a: NodeID, e: NodeID, stale: set<NodeID>, empty: set<NodeID>) returns (c: State)
    requires Cast(cfg, a, e, stale, empty)
    ensures At(cfg, c) && c.nodes[a] == Leading(a, 1, FromSeq(OLD), NewMaps(cfg, a, 0), 0)
    ensures c.nodes[e] == Voter(0, NO_NODE) && AllAre(c, stale, Voter(0, NO_NODE)) && AllAre(c, empty, Voter(1, a))
    ensures VoteReq(VoteRequest(1, a, 0, 0)) in c.msgs
  {
    c := FirstTerm(cfg, a, e, stale, empty);
    c := ProposeMove(cfg, c, a, 1, [Entry(1, 1)], NewMaps(cfg, a, 0), NOOP);
    assert [Entry(1, 1)] + [Entry(2, 1)] == OLD;
  }

  lemma OldAcknowledged(cfg: Config, a: NodeID, e: NodeID, stale: set<NodeID>, empty: set<NodeID>) returns (c: State)
    requires Cast(cfg, a, e, stale, empty)
    ensures At(cfg, c) && c.nodes[a] == Leading(a, 1, FromSeq(OLD), NewMaps(cfg, a, 0), 0)
    ensures c.nodes[e] == Voter(0, NO_NODE) && AllAre(c, stale, Following(1, NO_NODE, FromSeq(OLD), a)) && AllAre(c, empty, Voter(1, a))
    ensures AllAcked(cfg, c, a, 3, stale, 2) && VoteReq(VoteRequest(1, a, 0, 0)) in c.msgs
  {
    c := FirstLeader(cfg, a, e, stale, empty);
    c := Spread(cfg, c, a, 1, OLD, NewMaps(cfg, a, 0), stale);
    forall b | b in stale ensures Acked(cfg, c, a, 3, b, 2) {
      var req, rt :| AckedBy(cfg, c, a, 1, b, 2, req, rt);
      assert AckedBy(cfg, c, a, 3, b, 2, req, rt);
    }
  }

  // ---------------------------------------------------------------------
  // Another leader, and the first one again
  // ---------------------------------------------------------------------

  lemma SecondLeader(cfg: Config, a: NodeID, e: NodeID, stale: set<NodeID>, empty: set<NodeID>) returns (c: State)
    requires Cast(cfg, a, e, stale, empty)
    ensures At(cfg, c) && c.nodes[a] == Leading(a, 1, FromSeq(OLD), NewMaps(cfg, a, 0), 0)
    ensures c.nodes[e] == Leading(e, 2, FromSeq(OTHER), NewMaps(cfg, e, 0), 0)
    ensures AllAre(c, stale, Following(1, NO_NODE, FromSeq(OLD), a)) && AllAre(c, empty, Voter(2, e)) && AllAcked(cfg, c, a, 3, stale, 2)
  {
    EmptyReads();
    var c0 := OldAcknowledged(cfg, a, e, stale, empty);
    c := VoteMove(cfg, c0, e, VoteRequest(1, a, 0, 0), EMPTY, NO_NODE);
    c := StandMove(cfg, c, e, 1, a, EMPTY, NO_NODE);
    c := ElectFirst(cfg, c, e, 2, empty);
    AckedStill(cfg, c0, c, a, 3, stale, 2);
  }

  lemma Replaced(v: Variant, a: NodeID, e: NodeID, ls: LeaderState)
    requires v.rereadTerm
    ensures HandleAppend(v, a, Leading(a, 1, FromSeq(OLD), ls, 0), AppendRequest(2, e, 0, 0, OTHER, 0)) ==
            (Following(2, NO_NODE, FromSeq(OTHER), e), AppendResponse(2, true, a, 1, 0, 0))
  {
    FromSeqReads(OLD);
    FromSeqReads(OTHER);
    Splice.IntendedIsMerge(OLD, 0, OTHER);
    assert Splice.Agreeing(OLD, 0, OTHER) == 0;
    assert Splice.Merge(OLD, 0, OTHER) == OTHER;
  }

  lemma SendsOther(e: NodeID, a: NodeID, ls: LeaderState)
    requires Lookup(ls.nextIndex, a) == 1
    ensures MakeAppend(e, Leading(e, 2, FromSeq(OTHER), ls, 0), a) == Some(AppendRequest(2, e, 0, 0, OTHER, 0))
  {
    var req := RequestFor(e, a, 2, OTHER, ls, 0);
    assert OTHER[0..] == OTHER;
  }

  /** The log of `a` is replaced by that of `e`. */
  lemma Overwrite(cfg: Config, c: State, a: NodeID, e: NodeID) returns (c': State)
    requires At(cfg, c) && cfg.variant.rereadTerm && e in cfg.nodes && a in cfg.Peers(e)
    requires c.nodes[a] == Leading(a, 1, FromSeq(OLD), NewMaps(cfg, a, 0), 0)
    requires c.nodes[e] == Leading(e, 2, FromSeq(OTHER), NewMaps(cfg, e, 0), 0)
    ensures At(cfg, c') && c.msgs <= c'.msgs && c'.nodes[a] == Following(2, NO_NODE, FromSeq(OTHER), e)
    ensures forall u :: u in cfg.nodes && u != a ==> c'.nodes[u] == c.nodes[u]
  {
    var req := AppendRequest(2, e, 0, 0, OTHER, 0);
    SendsOther(e, a, NewMaps(cfg, e, 0));
    c' := SendMove(cfg, c, e, a, req);
    Replaced(cfg.variant, a, e, NewMaps(cfg, a, 0));
    c' := AppendMove(cfg, c', a, req, Following(2, NO_NODE, FromSeq(OTHER), e), AppendResponse(2, true, a, 1, 0, 0));
  }

  /** `a` leads again, in term 3. */
  lemma Reelect(cfg: Config, c: State, a: NodeID, e: NodeID, empty: set<NodeID>) returns (c': State)
    requires At(cfg, c) && Elects(cfg, a, empty) && AllAre(c, empty, Voter(2, e))
    requires c.nodes[a] == Following(2, NO_NODE, FromSeq(OTHER), e)
    ensures At(cfg, c') && c.msgs <= c'.msgs && VoteReq(VoteRequest(3, a, 1, 2)) in c'.msgs
    ensures c'.nodes[a] == Leading(a, 3, FromSeq(NEW), NewMaps(cfg, a, 1), 0) && AllAre(c', empty, Voter(3, a))
    ensures forall u :: u in cfg.nodes && u != a && u !in empty ==> c'.nodes[u] == c.nodes[u]
  {
    FromSeqReads(OTHER);
    c' := StandMove(cfg, c, a, 2, NO_NODE, FromSeq(OTHER), e);
    c' := ElectWith(cfg, c', a, 3, OTHER, e, empty);
    assert OTHER + [Entry(2, 3)] == NEW;
  }

  lemma LeaderAgain(cfg: Config, a: NodeID, e: NodeID, stale: set<NodeID>, empty: set<NodeID>) returns (c: State)
    requires Cast(cfg, a, e, stale, empty)
    ensures At(cfg, c) && c.nodes[a] == Leading(a, 3, FromSeq(NEW), NewMaps(cfg, a, 1), 0)
    ensures c.nodes[e] == Leading(e, 2, FromSeq(OTHER), NewMaps(cfg, e, 0), 0)
    ensures AllAre(c, stale, Following(1, NO_NODE, FromSeq(OLD), a)) && AllAre(c, empty, Voter(3, a)) && AllAcked(cfg, c, a, 3, stale, 2)
    ensures VoteReq(VoteRequest(3, a, 1, 2)) in c.msgs
  {
    hide Reachable, AllAcked;
    var c0 := SecondLeader(cfg, a, e, stale, empty);
    c := Overwrite(cfg, c0, a, e);
    c := Reelect(cfg, c, a, e, empty);
    AckedStill(cfg, c0, c, a, 3, stale, 2);
  }

  // ---------------------------------------------------------------------
  // The stale replies
  // ---------------------------------------------------------------------

  /** The leader of term 3 believes that the nodes of `stale` agree with it up to index 2. */
  lemma StaleCounted(cfg: Config, a: NodeID, e: NodeID, stale: set<NodeID>, empty: set<NodeID>) returns (c: State, ls: LeaderState)
    requires Cast(cfg, a, e, stale, empty) && OneShort(cfg, a, e, stale)
    ensures At(cfg, c) && c.nodes[a] == Leading(a, 3, FromSeq(NEW), ls, 0) && Matched(ls, cfg.Peers(a), stale, 2, NewMaps(cfg, a, 1).nextIndex)
    ensures c.nodes[e] == Leading(e, 2, FromSeq(OTHER), NewMaps(cfg, e, 0), 0)
    ensures AllAre(c, stale, Following(1, NO_NODE, FromSeq(OLD), a)) && AllAre(c, empty, Voter(3, a))
    ensures VoteReq(VoteRequest(3, a, 1, 2)) in c.msgs
  {
    c := LeaderAgain(cfg, a, e, stale, empty);
    c, ls := CountStale(cfg, c, a, stale);
  }

  lemma CountStale(cfg: Config, c: State, a: NodeID, stale: set<NodeID>) returns (c': State, ls: LeaderState)
    requires At(cfg, c) && a in cfg.nodes && stale <= cfg.Peers(a) && 1 + |stale| < CommitMajority(|cfg.Peers(a)|)
    requires c.nodes[a] == Leading(a, 3, FromSeq(NEW), NewMaps(cfg, a, 1), 0) && AllAcked(cfg, c, a, 3, stale, 2)
    ensures At(cfg, c') && c'.msgs == c.msgs && c'.nodes[a] == Leading(a, 3, FromSeq(NEW), ls, 0)
    ensures Matched(ls, cfg.Peers(a), stale, 2, NewMaps(cfg, a, 1).nextIndex)
    ensures forall u :: u in cfg.nodes && u != a ==> c'.nodes[u] == c.nodes[u]
  {
    NewMapsMatched(cfg.Peers(a), 1, 2);
    c', ls := CountReplies(cfg, c, a, 3, NEW, NewMaps(cfg, a, 1), {}, NewMaps(cfg, a, 1).nextIndex, stale);
    assert {} + stale == stale;
  }

  lemma Extends(v: Variant, a: NodeID, e: NodeID, ls: LeaderState)
    requires v.rereadTerm
    ensures HandleAppend(v, e, Leading(e, 2, FromSeq(OTHER), ls, 0), AppendRequest(3, a, 1, 2, [Entry(2, 3)], 0)) ==
            (Following(3, NO_NODE, FromSeq(NEW), a), AppendResponse(3, true, e, 2, 0, 0))
  {
    FromSeqReads(OTHER);
    FromSeqReads(NEW);
    Splice.AppendsAtEnd(true, OTHER, [Entry(2, 3)]);
    assert OTHER + [Entry(2, 3)] == NEW;
  }

  lemma LastAcknowledged(cfg: Config, a: NodeID, e: NodeID, stale: set<NodeID>, empty: set<NodeID>) returns (c: State, ls: LeaderState)
    requires Cast(cfg, a, e, stale, empty) && OneShort(cfg, a, e, stale)
    ensures At(cfg, c) && c.nodes[a] == Leading(a, 3, FromSeq(NEW), ls, 0) && Matched(ls, cfg.Peers(a), stale, 2, NewMaps(cfg, a, 1).nextIndex)
    ensures Acked(cfg, c, a, 3, e, 2)
    ensures AllAre(c, stale, Following(1, NO_NODE, FromSeq(OLD), a)) && AllAre(c, empty, Voter(3, a))
    ensures VoteReq(VoteRequest(3, a, 1, 2)) in c.msgs
  {
    c, ls := StaleCounted(cfg, a, e, stale, empty);
    var req := RequestFor(a, e, 3, NEW, ls, 0);
    assert NEW[1..] == [Entry(2, 3)];
    c := SendMove(cfg, c, a, e, req);
    Extends(cfg.variant, a, e, NewMaps(cfg, e, 0));
    c := AppendMove(cfg, c, e, req, Following(3, NO_NODE, FromSeq(NEW), a), AppendResponse(3, true, e, 2, 0, 0));
    assert AckedBy(cfg, c, a, 3, e, 2, req, 3);
  }

  /** The entry of term 3 is committed, though only `a` and `e` hold it. */
  lemma CommitsOnStale(cfg: Config, a: NodeID, e: NodeID, stale: set<NodeID>, empty: set<NodeID>) returns (c: State, ls: LeaderState)
    requires Cast(cfg, a, e, stale, empty) && OneShort(cfg, a, e, stale)
    ensures At(cfg, c) && c.nodes[a] == Leading(a, 3, FromSeq(NEW), ls, 2)
    ensures AllAre(c, stale, Following(1, NO_NODE, FromSeq(OLD), a)) && AllAre(c, empty, Voter(3, a))
    ensures VoteReq(VoteRequest(3, a, 1, 2)) in c.msgs
  {
    c, ls := LastAcknowledged(cfg, a, e, stale, empty);
    c, ls := CountReply(cfg, c, a, 3, NEW, ls, stale, NewMaps(cfg, a, 1).nextIndex, e);
  }

  /** A reachable state has a leader of term 4 whose entry at index 2 is not the one the leader of term 3
      has committed there. */
  lemma CommittedEntryReplaced(cfg: Config) returns (c: State, a: NodeID, b: NodeID)
    requires cfg.Valid() && |cfg.nodes| % 2 == 1 && |cfg.nodes| >= 5 && cfg.variant == Variant(true, false)
    ensures At(cfg, c) && a in cfg.nodes && b in cfg.nodes
    ensures c.nodes[a].currentTerm == 3 && c.nodes[a].commitIndex == 2
    ensures 2 in c.nodes[a].log.entries && c.nodes[a].log.entries[2] == Entry(2, 3)
    ensures c.nodes[b].role == Leader && c.nodes[b].currentTerm == 4
    ensures 2 in c.nodes[b].log.entries && c.nodes[b].log.entries[2] == Entry(2, 1)
  {
    hide Reachable, FromSeq;
    var e, stale, empty;
    a, e, stale, empty := CastExists(cfg);
    b :| b in stale;
    var ls;
    c, ls := CommitsOnStale(cfg, a, e, stale, empty);
    c := LaterLeader(cfg, c, a, b, empty);
    EntriesAtTwo();
  }

  lemma EntriesAtTwo()
    ensures 2 in FromSeq(NEW).entries && FromSeq(NEW).entries[2] == Entry(2, 3)
    ensures 2 in FromSeq(LATER).entries && FromSeq(LATER).entries[2] == Entry(2, 1)
  {
  }

  /** A node that kept the old log is elected next. */
  lemma LaterLeader(cfg: Config, c: State, a: NodeID, b: NodeID, empty: set<NodeID>) returns (c': State)
    requires At(cfg, c) && a in cfg.nodes && a != b && a !in empty && Elects(cfg, b, empty) && AllAre(c, empty, Voter(3, a))
    requires c.nodes[b] == Following(1, NO_NODE, FromSeq(OLD), a) && VoteReq(VoteRequest(3, a, 1, 2)) in c.msgs
    ensures At(cfg, c') && c'.nodes[a] == c.nodes[a] && AllAre(c', empty, Voter(4, b))
    ensures c'.nodes[b] == Leading(b, 4, FromSeq(LATER), NewMaps(cfg, b, 2), 0)
  {
    FromSeqReads(OLD);
    c' := VoteMove(cfg, c, b, VoteRequest(3, a, 1, 2), FromSeq(OLD), a);
    c' := StandMove(cfg, c', b, 3, a, FromSeq(OLD), a);
    c' := ElectWith(cfg, c', b, 4, OLD, a, empty);
    assert OLD + [Entry(3, 4)] == LATER;
  }

  // ---------------------------------------------------------------------
  // Both entries applied
  // ---------------------------------------------------------------------

  /** The later leader commits its whole log, with the help of the nodes that have nothing. */
  lemma LaterCommits(cfg: Config, c: State, a: NodeID, b: NodeID, empty: set<NodeID>) returns (c': State, ls: LeaderState)
    requires At(cfg, c) && a in cfg.nodes && a != b && a !in empty && Elects(cfg, b, empty) && |cfg.nodes| % 2 == 1
    requires c.nodes[b] == Leading(b, 4, FromSeq(LATER), NewMaps(cfg, b, 2), 0) && AllAre(c, empty, Voter(4, b))
    ensures At(cfg, c') && c'.nodes[a] == c.nodes[a] && c'.nodes[b] == Leading(b, 4, FromSeq(LATER), ls, 3)
  {
    hide Reachable;
    assert |cfg.Peers(b)| == |cfg.nodes| - 1;
    c', ls := ReplicateBack(cfg, c, b, 4, LATER, 2, empty);
  }

  /** A reachable state in which two nodes have applied different entries at index 2. */
  lemma AppliedDifferently(cfg: Config) returns (c: State, a: NodeID, b: NodeID)
    requires cfg.Valid() && |cfg.nodes| % 2 == 1 && |cfg.nodes| >= 5 && cfg.variant == Variant(true, false)
    ensures At(cfg, c) && a in cfg.nodes && b in cfg.nodes
    ensures c.nodes[a].lastApplied == 2 && c.nodes[a].log == FromSeq(NEW)
    ensures c.nodes[b].lastApplied == 3 && c.nodes[b].log == FromSeq(LATER)
  {
    hide Reachable;
    var e, stale, empty, ls;
    a, e, stale, empty := CastExists(cfg);
    b :| b in stale;
    c, ls := CommitsOnStale(cfg, a, e, stale, empty);
    c := AppliesAll(cfg, c, a, 3, NEW, ls, 2);
    c := LaterLeader(cfg, c, a, b, empty);
    c, ls := LaterCommits(cfg, c, a, b, empty);
    c := AppliesAll(cfg, c, b, 4, LATER, ls, 3);
  }

  lemma AppliesAll(cfg: Config, c: State, v: NodeID, t: nat, xs: Entries, ls: LeaderState, commit: nat) returns (c': State)
    requires At(cfg, c) && v in cfg.nodes && c.nodes[v] == Leading(v, t, FromSeq(xs), ls, commit) && commit <= |xs|
    ensures At(cfg, c') && c'.msgs == c.msgs && c'.nodes[v].lastApplied == commit && c'.nodes[v].log == FromSeq(xs)
    ensures forall u :: u in cfg.nodes && u != v ==> c'.nodes[u] == c.nodes[u]
  {
    Replay.ApplyPlain(c.nodes[v], xs);
    c' := ApplyMove(cfg, c, v);
  }
}
