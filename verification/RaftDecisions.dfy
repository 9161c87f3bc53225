/**
 * When a node of src/raft/node.rs wins, commits and answers reads: each decision is taken
 * exactly when the condition of the Raft paper holds, neither less nor more often.
 */
module RaftDecisions {
  import opened Common
  import RaftLog
  import opened RaftNode
  import opened RaftQuorum
  import Store = RaftLogStore

  type NodeID = RaftLog.NodeID
  type Index = RaftLog.Index
  type Term = RaftLog.Term

  /** A candidate becomes leader on a vote exactly if that gives it a quorum of votes. */
  lemma ElectedIff(n: Node, e: Envelope)
    requires n.role.Candidate? && e.message == CampaignResponse(true)
    requires n.log.term > 0 && n.log.vote == Some(n.id) && n.id !in n.peers
    ensures var o := StepCandidate(n, e);
      var votes := n.role.votes + {e.from};
      if 2 * |votes| > ClusterSize(n) then o.node.role.Leader? && o.node.log.term == n.log.term
      else o == Quiet(n.(role := Candidate(votes)))
  {
    hide BecomeLeader;
    var n' := n.(role := Candidate(n.role.votes + {e.from}));
    if |n'.role.votes| >= QuorumSize(n) { LeadsWithNoop(n'); }
  }

  lemma PlansLast(entries: seq<RaftLog.Entry>, e: RaftLog.Entry, p: Progress, m: nat)
    requires p.matchIndex <= |entries| && p.nextIndex == |entries| + 1 && m >= 1 && e.index == |entries| + 1
    ensures ProgressValid(p, |entries + [e]|)
    ensures PlanAppend(entries + [e], p, false, m)
         == Plan(p.(nextIndex := |entries| + 2), Some(Append(|entries|, RaftLog.TermAt(entries, |entries|), [e])))
  {
    var l := |entries|;
    assert RaftLog.Between(entries + [e], l, l + m) == [e];
    assert RaftLog.TermAt(entries + [e], l) == RaftLog.TermAt(entries, l);
  }

  /**
   * A new entry is sent at once to exactly the peers that have been sent everything before it; nothing is sent to
   * others, nor changed for them.
   */
  lemma ProposedToIff(n: Node, command: Option<RaftLog.Command>, q: NodeID)
    requires n.role.Leader? && n.log.term > 0 && n.maxAppend >= 1 && n.role.progress.Keys == n.peers && q in n.peers
    requires forall p :: p in n.peers ==> ProgressValid(n.role.progress[p], |n.log.entries|)
    ensures Propose(n, command).node.role.Leader? && q in Propose(n, command).node.role.progress
    ensures var l, o, p := |n.log.entries|, Propose(n, command), n.role.progress[q];
      var e := RaftLog.Entry(l + 1, n.log.term, command);
      if p.nextIndex == l + 1 then
        && Mail(n, q, Append(l, RaftLog.TermAt(n.log.entries, l), [e])) in o.sent
        && o.node.role.progress[q] == p.(nextIndex := l + 2)
      else (forall m :: m in o.sent ==> m.to != q) && o.node.role.progress[q] == p
  {
    hide PlanAppend, RaftLog.TermAt;
    var l, p := |n.log.entries|, n.role.progress[q];
    var e := RaftLog.Entry(l + 1, n.log.term, command);
    if p.nextIndex == l + 1 {
      PlansLast(n.log.entries, e, p, n.maxAppend);
      assert Due(n.(log := n.log.(entries := n.log.entries + [e])), q);
    }
  }

  /** A new leader starts with an entry of its own term, and sends it and announces itself to every peer. */
  lemma LeadsWithNoop(n: Node)
    requires n.log.term > 0 && n.log.vote == Some(n.id) && n.id !in n.peers
    ensures var o := BecomeLeader(n);
      && o.node.role.Leader? && o.node.log.term == n.log.term
      && o.node.log.entries == n.log.entries + [RaftLog.Entry(|n.log.entries| + 1, n.log.term, None)]
      && Broadcast(o.node, Heartbeat(|o.node.log.entries|, o.node.log.commitIndex, o.node.role.readSeq)) <= o.sent
      && var l := |n.log.entries|;
         n.maxAppend >= 1 ==> forall q :: q in n.peers ==>
           Mail(n, q, Append(l, RaftLog.TermAt(n.log.entries, l), [RaftLog.Entry(l + 1, n.log.term, None)])) in o.sent
  {
    hide Broadcast, RaftLog.TermAt;
    var start := n.(role := Leader(NewProgress(n), map[], [], 0));
    ProposeKeepsLeader(start);
    var n1 := Propose(start, None).node;
    if n.maxAppend >= 1 {
      forall q | q in n.peers
        ensures var l := |n.log.entries|;
          Mail(n, q, Append(l, RaftLog.TermAt(n.log.entries, l), [RaftLog.Entry(l + 1, n.log.term, None)]))
            in Propose(start, None).sent
      {
        ProposedToIff(start, None, q);
      }
    }
    CommitKeepsLeader(n1);
    hide Propose, MaybeCommit;
  }

  lemma ProposeKeepsLeader(n: Node)
    requires n.role.Leader? && n.log.term > 0 && n.role.queue == [] && n.role.progress == NewProgress(n)
    ensures var n' := Propose(n, None).node;
      && n'.role.Leader? && n'.role.queue == [] && n'.id == n.id && n'.peers == n.peers &&
        n'.role.progress.Keys == n.peers
      && n'.log == n.log.(entries := n.log.entries + [RaftLog.Entry(|n.log.entries| + 1, n.log.term, None)])
      && forall p :: p in n.peers ==> n'.role.progress[p].matchIndex == 0
  {
    hide Mail;
    var n1 := n.(log := RaftLog.Append(n.log, None).log);
    assert forall p :: p in n.peers ==> ProgressValid(n1.role.progress[p], |n1.log.entries|);
  }

  lemma CommitKeepsLeader(n: Node)
    requires n.role.Leader? && n.role.queue == [] && n.role.progress.Keys == n.peers && n.id !in n.peers
    requires forall p :: p in n.peers ==> n.role.progress[p].matchIndex == 0
    ensures MaybeCommit(n).node.role.Leader? && MaybeCommit(n).node.log.entries == n.log.entries
    ensures MaybeCommit(n).node.log.term == n.log.term
  {
    hide QuorumValue;
    TableSize(n);
    QuorumWithin(n);
  }

  // ---------------------------------------------------------------- commits

  /** A value that a quorum has reached is at most the quorum value, and the other way round. */
  lemma QuorumReached(m: map<NodeID, nat>, q: nat, v: nat)
    requires 1 <= q <= |m|
    ensures |AtLeast(m, v)| >= q <==> v <= QuorumValue(m, q)
  {
    var w := QuorumValue(m, q);
    if v <= w { SubsetSize(AtLeast(m, w), AtLeast(m, v)); } else { SubsetSize(AtLeast(m, v), AtLeast(m, w + 1)); }
  }

  /**
   * An entry of the leader's own term is committed exactly when a quorum is known to store it; a commit never goes
   * beyond what a quorum stores, nor back.
   */
  lemma CommittedIff(n: Node, i: Index)
    requires n.role.Leader? && TableFits(n) && Store.WellFormed(n.log)
    requires forall p :: p in n.role.progress ==> n.role.progress[p].matchIndex <= |n.log.entries|
    requires n.log.commitIndex < i <= |n.log.entries|
    ensures var now := MaybeCommit(n).node.log;
      && (n.log.entries[i - 1].term == n.log.term ==>
        (i <= now.commitIndex <==> |AtLeast(MatchTable(n), i)| >= QuorumSize(n)))
      && (i <= now.commitIndex ==> |AtLeast(MatchTable(n), i)| >= QuorumSize(n))
      && n.log.commitIndex <= now.commitIndex
  {
    hide QuorumValue, MaybeRead, ApplyAndAnswer, AtLeast, RaftLog.TermsAscend;
    TableSize(n);
    var q := QuorumSize(n);
    var v := QuorumValue(MatchTable(n), q);
    QuorumReached(MatchTable(n), q, i);
    QuorumWithin(n);
    if n.log.commitIndex < v {
      var log := n.log.(commitIndex := v, commitTerm := n.log.entries[v - 1].term);
      CommitKeepsLog(n.(log := log));
      if i <= v { Store.AscendFrom(n.log.entries, i - 1, v - 1); }
      assert n.log.entries[v - 1].term <= n.log.term;
    }
  }

  lemma QuorumWithin(n: Node)
    requires n.role.Leader? && TableFits(n) && 1 <= QuorumSize(n) <= |MatchTable(n)|
    requires forall p :: p in n.role.progress ==> n.role.progress[p].matchIndex <= |n.log.entries|
    ensures QuorumValue(MatchTable(n), QuorumSize(n)) <= |n.log.entries|
  {
    var m := MatchTable(n);
    var v := QuorumValue(m, QuorumSize(n));
    assert v in m.Values;
    var p :| p in m && m[p] == v;
  }

  lemma CommitKeepsLog(n: Node)
    requires n.role.Leader?
    ensures ApplyAndAnswer(n).node.log == n.log
    ensures MaybeRead(ApplyAndAnswer(n).node).node.log == n.log
  {
    hide QuorumValue;
  }

  // ---------------------------------------------------------------- reads

  /** Reads are queued with ascending sequence numbers. */
  predicate Queued(queue: seq<PendingRead>) {
    forall i, j :: 0 <= i < j < |queue| ==> queue[i].readSeq <= queue[j].readSeq
  }

  lemma {:induction false} ReadyAre(queue: seq<PendingRead>, confirmed: nat, i: nat)
    requires Queued(queue) && i < |queue|
    ensures i < ReadyReads(queue, confirmed) <==> queue[i].readSeq <= confirmed
  {
    var k := ReadyReads(queue, confirmed);
    if k <= i { assert k == i || queue[k].readSeq <= queue[i].readSeq; }
  }

  /**
   * Once the leader has applied an entry of its own term, a queued read is answered exactly when a quorum has
   * confirmed its sequence number, and the reads that stay are exactly the others, in order.
   */
  lemma ReadAnsweredIff(n: Node, i: nat)
    requires n.role.Leader? && TableFits(n) && Queued(n.role.queue) && i < |n.role.queue|
    requires n.log.commitTerm >= n.log.term && |n.applied| >= n.log.commitIndex
    ensures var o := MaybeRead(n);
      var read := n.role.queue[i];
      var confirmed := |AtLeast(ReadTable(n), read.readSeq)| >= QuorumSize(n);
      && o.node.role.Leader? && |o.node.role.queue| <= |n.role.queue|
      && n.role.queue[|n.role.queue| - |o.node.role.queue|..] == o.node.role.queue
      && (confirmed <==> i < |n.role.queue| - |o.node.role.queue|)
      && (confirmed ==> Mail(n, read.from, ClientResponse(read.id, ReadAnswer(read.command, n.applied))) in o.sent)
  {
    hide QuorumValue, AtLeast, ReadyReads;
    TableSize(n);
    var v := QuorumValue(ReadTable(n), QuorumSize(n));
    QuorumReached(ReadTable(n), QuorumSize(n), n.role.queue[i].readSeq);
    ReadyAre(n.role.queue, v, i);
  }
}
