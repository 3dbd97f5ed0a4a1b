/** What a run has done so far, kept for the proofs only: it is computed from the run
    and read by no step. */
module History {
  import opened Types
  import opened LogModel
  import opened NodeModel
  import opened Cluster

  /** A vote and the voter's log when it was cast. */
  datatype Vote = Vote(candidate: NodeID, log: seq<LogEntry>)

  /** A won election: who won, who voted for it, and the log of that term's leader.
      `base` is the length of the log it was elected with. */
  datatype Elected = Elected(leader: NodeID, electors: set<NodeID>, base: nat, log: seq<LogEntry>)

  /** Keys are (term, node). `acked` is how much of the term's leader log the node has held in that term. */
  datatype History = History(
    campaigns: map<(nat, NodeID), seq<LogEntry>>,
    votes: map<(nat, NodeID), Vote>,
    elected: map<nat, Elected>,
    acked: map<(nat, NodeID), nat>)

  const NOTHING := History(map[], map[], map[], map[])

  function AddCampaign(h: History, t: nat, v: NodeID, log: seq<LogEntry>): History {
    h.(campaigns := h.campaigns[(t, v) := log], votes := h.votes[(t, v) := Vote(v, log)])
  }

  function AddVote(h: History, t: nat, v: NodeID, candidate: NodeID, log: seq<LogEntry>): History {
    if (t, v) in h.votes then h else h.(votes := h.votes[(t, v) := Vote(candidate, log)])
  }

  function AddLeader(h: History, t: nat, e: Elected): History {
    h.(elected := h.elected[t := e], acked := h.acked[(t, e.leader) := |e.log|])
  }

  function ExtendLeader(h: History, t: nat, log: seq<LogEntry>): History {
    if t !in h.elected then h else AddLeader(h, t, h.elected[t].(log := log))
  }

  function AckedUpTo(h: History, t: nat, v: NodeID): nat {
    if (t, v) in h.acked then h.acked[(t, v)] else 0
  }

  function AddAck(h: History, t: nat, v: NodeID, m: nat): History {
    h.(acked := h.acked[(t, v) := Max(AckedUpTo(h, t, v), m)])
  }

  ghost function RecordVote(h: History, v: NodeID, n: Node, req: VoteRequest): History {
    if HandleVote(v, n, req).1.voteGranted then AddVote(h, req.term, v, req.candidateId, Seq(n.log)) else h
  }

  /** The election a finishing candidate has won, if it has. */
  ghost predicate Wins(peers: set<NodeID>, n: Node) {
    n.election.Some? && n.role == Candidate && Won(n.election.value, |peers|)
  }

  ghost function RecordElection(h: History, v: NodeID, peers: set<NodeID>, n: Node): History {
    if Wins(peers, n) then
      AddLeader(h, n.currentTerm,
                Elected(v, n.election.value.granted + {v}, |Seq(n.log)|, Seq(FinishElection(v, peers, n).log)))
    else h
  }

  ghost function RecordCommand(h: History, n: Node, c: Command): History {
    if n.role == Leader then ExtendLeader(h, n.currentTerm, Seq(Propose(n, c).log)) else h
  }

  ghost function RecordAppend(h: History, v: NodeID, req: AppendRequest, resp: AppendResponse): History {
    if resp.success then AddAck(h, req.term, v, resp.matchIndex) else h
  }

  /** The history after node `v`, in state `n`, takes the step `ev`. */
  ghost function Record(cfg: Config, h: History, v: NodeID, n: Node, ev: Event): History {
    match ev
    case Timeout => AddCampaign(h, n.currentTerm + 1, v, Seq(n.log))
    case RecvVote(req) => RecordVote(h, v, n, req)
    case EndElection => RecordElection(h, v, cfg.Peers(v), n)
    case ClientCommand(c) => RecordCommand(h, n, c)
    case RecvAppend(req) => RecordAppend(h, v, req, HandleAppend(cfg.variant, v, n, req).1)
    case _ => h
  }

  ghost predicate RecordedAt(cfg: Config, r: Run, hs: seq<History>, i: nat)
    requires |hs| == |r.states| == |r.labels| + 1 && i < |r.labels|
  {
    var a := r.labels[i];
    a.node in r.states[i].nodes && hs[i + 1] == Record(cfg, hs[i], a.node, r.states[i].nodes[a.node], a.event)
  }

  /** `hs` are the histories along the run. */
  ghost predicate Recorded(cfg: Config, r: Run, hs: seq<History>) {
    && |hs| == |r.states| == |r.labels| + 1
    && hs[0] == NOTHING
    && forall i :: 0 <= i < |r.labels| ==> RecordedAt(cfg, r, hs, i)
  }

  lemma {:induction false} Histories(cfg: Config, r: Run) returns (hs: seq<History>)
    requires IsRun(cfg, r)
    ensures Recorded(cfg, r, hs)
    decreases |r.labels|
  {
    if |r.labels| == 0 {
      hs := [NOTHING];
    } else {
      var f := Front(r);
      FrontIsRun(cfg, r);
      var k := |f.labels|;
      var gs := Histories(cfg, f);
      assert StepAt(cfg, r, k);
      hs := gs + [Record(cfg, gs[k], r.labels[k].node, r.states[k].nodes[r.labels[k].node], r.labels[k].event)];
      forall i | 0 <= i < |r.labels| ensures RecordedAt(cfg, r, hs, i) {
        if i < k { assert RecordedAt(cfg, f, gs, i); }
      }
    }
  }

  /** Nothing recorded is lost, and a leader's log only grows. */
  ghost predicate Extends(h: History, h': History) {
    && (forall k :: k in h.campaigns ==> k in h'.campaigns && h'.campaigns[k] == h.campaigns[k])
    && (forall k :: k in h.votes ==> k in h'.votes && h'.votes[k] == h.votes[k])
    && (forall t :: t in h.elected ==> t in h'.elected && Grows(h.elected[t], h'.elected[t]))
    && (forall k :: k in h.acked ==> k in h'.acked && h.acked[k] <= h'.acked[k])
  }

  ghost predicate Grows(e: Elected, e': Elected) {
    e'.leader == e.leader && e'.electors == e.electors && e'.base == e.base && e.log <= e'.log
  }
}
