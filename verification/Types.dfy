/** The records that cross the wire or sit in the log, and the names they use. */
module Types {

  /** A node's name; the empty name of the source is 0. */
  type NodeID = nat

  const NO_NODE: NodeID := 0

  type Byte = b: int | 0 <= b < 256

  /** A value; Go's nil slice and the empty slice are both `[]`. */
  type Bytes = seq<Byte>

  /** The contents of the key-value engine. */
  type Store = map<string, Bytes>

  datatype Option<+T> = None | Some(value: T)

  datatype Role = Follower | Candidate | Leader

  /** `Unknown` stands for any operation name the state machine does not recognise. */
  datatype Op = Put | Delete | Cas | Noop | Unknown

  datatype Command = Command(op: Op, key: string, value: Bytes, prevValue: Bytes)

  const NOOP := Command(Noop, "", [], [])

  datatype LogEntry = LogEntry(index: nat, term: nat, command: Command)

  datatype VoteRequest = VoteRequest(term: nat, candidateId: NodeID, lastLogIndex: nat, lastLogTerm: nat)

  datatype VoteResponse = VoteResponse(term: nat, voteGranted: bool, voterId: NodeID)

  datatype AppendRequest = AppendRequest(
    term: nat, leaderId: NodeID, prevLogIndex: nat, prevLogTerm: nat,
    entries: seq<LogEntry>, leaderCommit: nat)

  datatype AppendResponse = AppendResponse(
    term: nat, success: bool, followerId: NodeID,
    matchIndex: nat, conflictIndex: nat, conflictTerm: nat)

  /** Snapshot bytes: either the encoding of a store or something the decoder refuses. */
  datatype SnapshotData = Encoded(store: Store) | Malformed

  datatype SnapshotRequest = SnapshotRequest(
    term: nat, leaderId: NodeID, lastIncludedIndex: nat, lastIncludedTerm: nat, data: SnapshotData)

  datatype SnapshotResponse = SnapshotResponse(term: nat, followerId: NodeID, success: bool)

  function Min(a: nat, b: nat): nat {
    if a <= b then a else b
  }

  function Max(a: nat, b: nat): nat {
    if a >= b then a else b
  }

  ghost predicate Fills<T(!new)>(m: map<NodeID, T>, s: set<NodeID>, x: T) {
    m.Keys == s && forall k :: k in s ==> m[k] == x
  }

  lemma {:induction false} FillingExists<T(!new)>(s: set<NodeID>, x: T)
    ensures exists m: map<NodeID, T> :: Fills(m, s, x)
  {
    if s == {} {
      var m: map<NodeID, T> := map[];
      assert Fills(m, s, x);
    } else {
      var k :| k in s;
      FillingExists(s - {k}, x);
      var m: map<NodeID, T> :| Fills(m, s - {k}, x);
      assert Fills(m[k := x], s, x);
    }
  }

  /** The map that holds `x` under every key of `s`. */
  ghost function Filled<T(!new)>(s: set<NodeID>, x: T): (m: map<NodeID, T>)
    ensures m.Keys == s && forall k :: k in s ==> m[k] == x
  {
    FillingExists(s, x);
    var m: map<NodeID, T> :| Fills(m, s, x);
    m
  }

  /** A Go map read: an absent key reads as zero. */
  function Lookup(m: map<NodeID, nat>, k: NodeID): nat {
    if k in m then m[k] else 0
  }
}
