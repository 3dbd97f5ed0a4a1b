/** The AppendEntries handler as written against the intended one, request by request. */
module WrittenHandler {
  import opened Types
  import opened LogModel
  import opened NodeModel
  import S = Splice

  type Entries = seq<LogEntry>

  /** No entry of the request meets an entry of another term. */
  ghost predicate NoConflict(l: Log, prev: nat, entries: Entries) {
    forall i :: 0 <= i < |entries| ==> Meets(l, prev + 1 + i, entries[i].term)
  }

  ghost predicate Meets(l: Log, i: nat, term: nat) {
    TermAt(l, i) == 0 || TermAt(l, i) == term
  }

  /** On any log at all, holes included: without a conflict the two loops do the same. */
  lemma {:induction false} SameWithoutConflict(l: Log, prev: nat, entries: Entries)
    requires Indexed(entries, prev + 1) && NoConflict(l, prev, entries)
    ensures NodeModel.Splice(false, l, prev, entries) == NodeModel.Splice(true, l, prev, entries)
    decreases |entries|
  {
    if entries != [] {
      assert Meets(l, prev + 1 + 0, entries[0].term);
      var l1 := if TermAt(l, prev + 1) == 0 then Append(l, entries[0]) else l;
      forall i | 0 <= i < |entries[1..]| ensures Meets(l1, prev + 1 + 1 + i, entries[1..][i].term) {
        assert Meets(l, prev + 1 + (i + 1), entries[i + 1].term);
      }
      SameWithoutConflict(l1, prev + 1, entries[1..]);
    }
  }

  lemma ConflictMeans(xs: Entries, prev: nat, entries: Entries)
    requires prev <= |xs| && S.PositiveTerms(xs)
    ensures NoConflict(FromSeq(xs), prev, entries) <==> !S.Conflicts(xs, prev, entries)
  {
    FromSeqReads(xs);
    var k := S.Agreeing(xs, prev, entries);
    if S.Conflicts(xs, prev, entries) {
      assert !Meets(FromSeq(xs), prev + 1 + k, entries[k].term);
    } else {
      forall i | 0 <= i < |entries| ensures Meets(FromSeq(xs), prev + 1 + i, entries[i].term) {
        if i < k { assert xs[prev + i].term == entries[i].term; }
      }
    }
  }

  /** The request passes the term and consistency checks. */
  ghost predicate Acceptable(n: Node, req: AppendRequest) {
    && req.term >= n.currentTerm && req.prevLogIndex <= LastIndex(n.log)
    && (req.prevLogIndex > 0 ==> TermAt(n.log, req.prevLogIndex) == req.prevLogTerm)
  }

  /** The condition a caller can check: the written handler then does what is intended. */
  ghost predicate CleanRequest(n: Node, req: AppendRequest) {
    Acceptable(n, req) ==> NoConflict(n.log, req.prevLogIndex, req.entries)
  }

  lemma CleanRequestSame(variant: Variant, v: NodeID, n: Node, req: AppendRequest)
    requires Indexed(req.entries, req.prevLogIndex + 1) && CleanRequest(n, req)
    ensures HandleAppend(variant, v, n, req) == HandleAppend(INTENDED, v, n, req)
  {
    if Acceptable(n, req) {
      SameWithoutConflict(n.log, req.prevLogIndex, req.entries);
    }
  }

  /** The written handler is the intended one exactly on requests that meet no conflict. */
  lemma HandlerAsIntendedIff(v: NodeID, n: Node, req: AppendRequest, xs: Entries)
    requires n.log == FromSeq(xs) && S.PositiveTerms(xs) && Indexed(req.entries, req.prevLogIndex + 1)
    ensures HandleAppend(WRITTEN, v, n, req) == HandleAppend(INTENDED, v, n, req) <==> CleanRequest(n, req)
  {
    FromSeqReads(xs);
    if CleanRequest(n, req) {
      CleanRequestSame(WRITTEN, v, n, req);
    } else {
      ConflictMeans(xs, req.prevLogIndex, req.entries);
      S.WrittenIsIntendedIff(xs, req.prevLogIndex, req.entries);
      assert HandleAppend(WRITTEN, v, n, req).0.log != HandleAppend(INTENDED, v, n, req).0.log;
    }
  }

  /** Every index up to the last is there. */
  ghost predicate Whole(l: Log) {
    forall i :: 1 <= i <= LastIndex(l) ==> i in l.entries
  }

  lemma PlainIsWhole(ys: Entries)
    ensures Whole(FromSeq(ys))
  {
    FromSeqReads(ys);
  }

  lemma HoledIsWholeIff(ys: Entries, i: nat)
    requires 1 <= i <= |ys|
    ensures Whole(S.Without(FromSeq(ys), i)) <==> i == |ys|
  {
    var l := S.Without(FromSeq(ys), i);
    assert i !in l.entries;
    assert l.entries != map[] ==> LastIndex(l) in l.entries;
    if i < |ys| {
      assert |ys| in l.entries;
    }
  }

  lemma WrittenLog(v: NodeID, n: Node, req: AppendRequest, xs: Entries)
    requires n.log == FromSeq(xs) && S.PositiveTerms(xs) && Indexed(req.entries, req.prevLogIndex + 1)
    requires Acceptable(n, req)
    ensures req.prevLogIndex <= |xs|
    ensures var r := HandleAppend(WRITTEN, v, n, req);
            && r.1.success && r.0.log == S.Holed(xs, req.prevLogIndex, req.entries)
            && r.1.matchIndex == LastIndex(r.0.log)
  {
    FromSeqReads(xs);
    S.WrittenDropsConflict(xs, req.prevLogIndex, req.entries);
  }

  lemma HoledWholeIff(xs: Entries, prev: nat, entries: Entries)
    requires prev <= |xs|
    ensures Whole(S.Holed(xs, prev, entries)) <==>
            !(S.Conflicts(xs, prev, entries) && S.Agreeing(xs, prev, entries) + 1 < |entries|)
  {
    var ys := S.Merge(xs, prev, entries);
    if S.Conflicts(xs, prev, entries) {
      HoledIsWholeIff(ys, prev + S.Agreeing(xs, prev, entries) + 1);
    } else {
      PlainIsWhole(ys);
    }
  }

  /** The reply of the written handler claims every index up to `matchIndex`, its last. The claim is
      false exactly when a conflict is followed by another entry of the same request. */
  lemma WrittenClaimsHoleIff(v: NodeID, n: Node, req: AppendRequest, xs: Entries)
    requires n.log == FromSeq(xs) && S.PositiveTerms(xs) && Indexed(req.entries, req.prevLogIndex + 1)
    requires Acceptable(n, req) && req.prevLogIndex <= |xs|
    ensures var r := HandleAppend(WRITTEN, v, n, req);
            && r.1.success && r.1.matchIndex == LastIndex(r.0.log)
            && (Whole(r.0.log) <==>
                !(S.Conflicts(xs, req.prevLogIndex, req.entries) &&
                  S.Agreeing(xs, req.prevLogIndex, req.entries) + 1 < |req.entries|))
  {
    WrittenLog(v, n, req, xs);
    HoledWholeIff(xs, req.prevLogIndex, req.entries);
  }
}
