/**
 * Leaders keep the invariant of RaftInvariant: replication, the commit rule, and
 * quorum reads.
 *
 * - Appends carry pieces of the leader's log, and progress stays within it.
 * - An index is committed when a quorum has acknowledged it in the leader's own
 *   term, section 5.4.2 of the Raft paper; the quorum is recorded.
 * - A read is answered when a quorum has confirmed, after its arrival, that it
 *   was still in the leader's term; so no later leader had committed before the
 *   arrival, and the leader's state holds all that earlier leaders committed.
 * - A proposal extends the reign's log by one entry of its term.
 *
 * `Good` composes: each function of RaftNode is taken apart into part-steps, and
 * the history grows from one to the next.
 */
module RaftLeader {
  import opened Common
  import opened RaftLog
  import opened RaftNode
  import opened RaftHistory
  import opened RaftGrowth
  import opened RaftInvariant
  import opened RaftFollower

  // ---------------------------------------------------------------- appends

  predicate Indexed(entries: seq<Entry>) {
    forall i :: 0 <= i < |entries| ==> entries[i].index == i + 1
  }

  lemma LogIndexed(h: History, l: seq<Entry>)
    requires LogOk(h, l)
    ensures Indexed(l)
  {
    forall i | 0 <= i < |l| ensures l[i].index == i + 1 { assert EntryOk(h, l, i); }
  }

  /** An append to a peer carries a piece of the log, and keeps the progress invariant. */
  lemma PlanShape(entries: seq<Entry>, p: Progress, probe: bool, maxAppend: nat)
    requires ProgressValid(p, |entries|) && Indexed(entries) && maxAppend >= 1
    ensures var plan := PlanAppend(entries, p, probe, maxAppend);
      && plan.progress == p.(nextIndex := plan.progress.nextIndex)
      && ProgressValid(plan.progress, |entries|)
      && (plan.message.Some? ==>
            && plan.message.value.Append?
            && var m := plan.message.value; AppendFits(entries, m.baseIndex, m.baseTerm, m.entries))
  {
    hide TermAt, Indexed;
    var base := p.nextIndex - 1;
    if base < |entries| {
      assert Between(entries, base, base + maxAppend) != [];
      BatchEnds(entries, base, maxAppend);
    }
  }

  /** The last entry of a batch determines the next index. */
  lemma BatchEnds(entries: seq<Entry>, base: nat, maxAppend: nat)
    requires Indexed(entries) && base < |entries| && maxAppend >= 1
    ensures var es := Between(entries, base, base + maxAppend);
      es != [] && base + |es| <= |entries| && es == entries[base..base + |es|] && es[|es| - 1].index == base + |es|
  {}

  /** Replacing the progress of one peer by a valid one. */
  lemma PeerUpdated(h: History, cluster: set<NodeID>, n: Node, peer: NodeID, p: Progress)
    requires NodeOk(h, cluster, n) && n.role.Leader? && peer in n.peers
    requires PeerOk(h, n.log.term, peer, p)
    ensures NodeOk(h, cluster, WithProgress(n, peer, p))
  {
    hide DurableOk, PeerOk, PendingOk;
    assert DurableOk(h, cluster, WithProgress(n, peer, p)) by { RoleIrrelevant(h, cluster, n, WithProgress(n, peer, p));
      }
    assert n.role.progress[peer := p].Keys == n.peers;
  }

  lemma SendAppendGood(cluster: set<NodeID>, now: Moment, h: History, n: Node, peer: NodeID, probe: bool)
    requires HistoryOk(h, cluster) && NodeOk(h, cluster, n) && n.role.Leader? && peer in n.peers
    ensures Good(cluster, now, h, h, n.id, SendAppend(n, peer, probe))
    ensures SendAppend(n, peer, probe).node.role.Leader? && SendAppend(n, peer, probe).node.log == n.log
  {
    hide HistoryOk, PendingOk, VoteMatches, AcksKept, CommitsKept, TermCurrent, PlanAppend, LogOk;
    var p := n.role.progress[peer];
    assert PeerOk(h, n.log.term, peer, p);
    LogIndexed(h, n.log.entries);
    PlanShape(n.log.entries, p, probe, n.maxAppend);
    var plan := PlanAppend(n.log.entries, p, probe, n.maxAppend);
    PeerUpdated(h, cluster, n, peer, plan.progress);
    GoodStill(cluster, now, h, SendAppend(n, peer, probe));
  }

  lemma ProbeGood(cluster: set<NodeID>, now: Moment, h: History, n: Node, peer: NodeID, nextIndex: Index)
    requires HistoryOk(h, cluster) && NodeOk(h, cluster, n) && n.role.Leader? && peer in n.peers
    ensures Good(cluster, now, h, h, n.id, Probe(n, peer, nextIndex))
    ensures Probe(n, peer, nextIndex).node.role.Leader?
  {
    hide HistoryOk, DurableOk, PendingOk, Good, SendAppend, Confirmed, Acked;
    var p := n.role.progress[peer];
    assert PeerOk(h, n.log.term, peer, p);
    var p' := RegressNext(p, nextIndex);
    PeerUpdated(h, cluster, n, peer, p');
    SendAppendGood(cluster, now, h, WithProgress(n, peer, p'), peer, true);
  }

  lemma SendHeartbeatsGood(cluster: set<NodeID>, now: Moment, h: History, n: Node)
    requires HistoryOk(h, cluster) && NodeOk(h, cluster, n) && n.role.Leader?
    ensures Good(cluster, now, h, h, n.id, SendHeartbeats(n)) && SendHeartbeats(n).node == n
  {
    hide BallotsOk, AcksOk, CommitsOk, ArrivalsOk, PeerOk, PendingOk, VoteMatches, AcksKept, TermCurrent, LogOk,
      Committed;
    assert ReignShape(h.reigns[n.log.term], n.log.term);
    GoodStill(cluster, now, h, SendHeartbeats(n));
  }

  // ---------------------------------------------------------------- reads

  lemma TableQuorum(cluster: set<NodeID>, n: Node, m: map<NodeID, nat>, v: nat)
    requires StaticOk(cluster, n.id, n.peers, n.maxAppend)
    requires m.Keys == cluster && |AtLeast(m, v)| >= QuorumSize(n)
    ensures Quorum(cluster, AtLeast(m, v))
  {
    assert cluster == n.peers + {n.id};
  }

  /** The heart of linearizable reads: no leader of a later term had committed when the read arrived. */
  lemma NoLaterCommit(h: History, cluster: set<NodeID>, n: Node, readSeq: nat, confirmed: set<NodeID>, c: CommitEvent)
    requires ReignsOk(h, cluster) && CommitsOk(h, cluster) && ArrivalsOk(h, cluster)
    requires n.role.Leader? && LeaderOk(h, n)
    requires 1 <= readSeq <= |h.reigns[n.log.term].arrivals|
    requires Quorum(cluster, confirmed)
    requires forall p :: p in confirmed && p != n.id ==> p in n.role.progress && n.role.progress[p].readSeq >= readSeq
    requires c in h.reigns[n.log.term].arrivals[readSeq - 1].commits
    ensures c in h.commits && c.term in h.reigns && c.term <= n.log.term
  {
    hide PendingOk, BallotsOk;
    var t := n.log.term;
    var a := h.reigns[t].arrivals[readSeq - 1];
    assert ArrivalOk(h, cluster, t, a);
    assert CommitOk(h, cluster, c);
    assert Elected(h, cluster, c.term);
    var p := QuorumsMeet(cluster, confirmed, h.reigns[c.term].quorum);
    assert a.terms[p] >= c.term;
    if p != n.id {
      assert PeerOk(h, t, p, n.role.progress[p]);
      assert Confirmed(h, t, p, n.role.progress[p].readSeq);
    }
  }

  /** A leader that has committed in its own term has applied whatever earlier leaders committed. */
  lemma AppliedCovers(h: History, cluster: set<NodeID>, n: Node, c: CommitEvent)
    requires HistoryOk(h, cluster) && NodeOk(h, cluster, n) && n.role.Leader?
    requires n.log.commitTerm >= n.log.term && |n.applied| >= n.log.commitIndex
    requires c in h.commits && c.term in h.reigns && c.term <= n.log.term
    ensures StateHolds(h, c, n.applied)
  {
    hide BallotsOk, ArrivalsOk, AcksOk, PeerOk, PendingOk, VoteMatches, AcksKept, TermCurrent, LogOk, Committed, Quorum;
    var t := n.log.term;
    var log := h.reigns[t].log;
    assert CommitOk(h, cluster, c);
    assert ReignShape(h.reigns[t], t);
    assert n.log.commitTerm == TermAt(log, n.log.commitIndex) >= t;
    var x := h.reigns[c.term].log[..c.index];
    if c.term < t {
      LeaderCompleteness(h, cluster, c, t);
      assert n.log.commitIndex > |h.reigns[t].base|;
      assert x <= log;
    }
    assert |x| <= |n.applied|;
    assert n.applied == log[..|n.applied|];
    assert x == log[..|x|] == n.applied[..|x|];
  }

  /** Every read that is ready is answered on a state holding what was committed when it arrived. */
  lemma ReadAnswered(h: History, cluster: set<NodeID>, n: Node, r: PendingRead, confirmed: set<NodeID>)
    requires HistoryOk(h, cluster) && NodeOk(h, cluster, n) && n.role.Leader?
    requires n.log.commitTerm >= n.log.term && |n.applied| >= n.log.commitIndex
    requires PendingOk(h, n.log.term, r) && Quorum(cluster, confirmed)
    requires forall p :: p in confirmed && p != n.id ==> p in n.role.progress && n.role.progress[p].readSeq >= r.readSeq
    ensures AnswerOk(h, n.log.term, r.from, r.id, r.command, n.applied)
  {
    hide ReignsOk, BallotsOk, ArrivalsOk, AcksOk, CommitsOk, EntriesOk, VoteMatches, AcksKept, TermCurrent, LeaderOk,
      Committed, LogOk;
    var t := n.log.term;
    var a := h.reigns[t].arrivals[r.readSeq - 1];
    forall c | c in a.commits ensures StateHolds(h, c, n.applied) {
      NoLaterCommit(h, cluster, n, r.readSeq, confirmed, c);
      AppliedCovers(h, cluster, n, c);
    }
    assert AnswersArrival(h, a, r.from, r.id, r.command, n.applied);
  }

  /** A leader's node after dropping reads from the front of its queue. */
  lemma QueueShortened(h: History, cluster: set<NodeID>, n: Node, k: nat)
    requires NodeOk(h, cluster, n) && n.role.Leader? && k <= |n.role.queue|
    ensures NodeOk(h, cluster, n.(role := n.role.(queue := n.role.queue[k..])))
  {
    hide DurableOk, PeerOk, PendingOk;
    var n' := n.(role := n.role.(queue := n.role.queue[k..]));
    RoleIrrelevant(h, cluster, n, n');
  }

  lemma ReadTableOf(h: History, cluster: set<NodeID>, n: Node)
    requires NodeOk(h, cluster, n) && n.role.Leader?
    ensures TableFits(n) && MatchTable(n).Keys == cluster && ReadTable(n).Keys == cluster
    ensures StaticOk(cluster, n.id, n.peers, n.maxAppend) && n.id in cluster
  {
    assert cluster == n.peers + {n.id};
    assert ReadTable(n).Keys == n.peers + {n.id} == MatchTable(n).Keys;
  }

  lemma MaybeReadGood(cluster: set<NodeID>, now: Moment, h: History, n: Node)
    requires HistoryOk(h, cluster) && NodeOk(h, cluster, n) && n.role.Leader?
    ensures Good(cluster, now, h, h, n.id, MaybeRead(n))
    ensures MaybeRead(n).node.role.Leader? && MaybeRead(n).node == n.(role := MaybeRead(n).node.role)
    ensures MaybeRead(n).node.role.progress == n.role.progress
  {
    hide HistoryOk, NodeOk, MailOk, StaticOk, MaybeRead, ReadyReads, QuorumValue, Answered, ReadTable, MatchTable;
    hide QuorumSize;
    ReadTableOf(h, cluster, n);
    ReadsMean(n);
    if n.role.queue != [] && n.log.commitTerm >= n.log.term && |n.applied| >= n.log.commitIndex {
      var v := QuorumValue(ReadTable(n), QuorumSize(n));
      var k := ReadyReads(n.role.queue, v);
      QueueShortened(h, cluster, n, k);
      AnswersOk(h, cluster, n, v, k);
    }
    GoodStill(cluster, now, h, MaybeRead(n));
  }

  /** The answers to reads that a quorum has confirmed. */
  lemma AnswersOk(h: History, cluster: set<NodeID>, n: Node, v: nat, k: nat)
    requires HistoryOk(h, cluster) && NodeOk(h, cluster, n) && n.role.Leader?
    requires n.log.commitTerm >= n.log.term && |n.applied| >= n.log.commitIndex && k <= |n.role.queue|
    requires ReadTable(n).Keys == cluster && |AtLeast(ReadTable(n), v)| >= QuorumSize(n)
    requires forall i :: 0 <= i < k ==> n.role.queue[i].readSeq <= v
    ensures forall e :: e in Answered(n, n.role.queue, k) ==> MailOk(h, cluster, e)
  {
    hide HistoryOk, NodeOk, MailOk, StaticOk, QuorumSize;
    var confirmed := AtLeast(ReadTable(n), v);
    NodeStatic(h, cluster, n);
    TableQuorum(cluster, n, ReadTable(n), v);
    forall e | e in Answered(n, n.role.queue, k) ensures MailOk(h, cluster, e) {
      var i :| 0 <= i < k && e == Mail(n, n.role.queue[i].from,
        ClientResponse(n.role.queue[i].id, ReadAnswer(n.role.queue[i].command, n.applied)));
      AnswerMail(h, cluster, n, i, confirmed, e);
    }
  }

  lemma NodeStatic(h: History, cluster: set<NodeID>, n: Node)
    requires NodeOk(h, cluster, n)
    ensures StaticOk(cluster, n.id, n.peers, n.maxAppend)
  {}

  lemma AnswerMail(h: History, cluster: set<NodeID>, n: Node, i: nat, confirmed: set<NodeID>, e: Envelope)
    requires HistoryOk(h, cluster) && NodeOk(h, cluster, n) && n.role.Leader?
    requires n.log.commitTerm >= n.log.term && |n.applied| >= n.log.commitIndex
    requires i < |n.role.queue| && Quorum(cluster, confirmed)
    requires forall p :: p in confirmed && p != n.id ==>
      p in n.role.progress && n.role.progress[p].readSeq >= n.role.queue[i].readSeq
    requires e == Mail(n, n.role.queue[i].from,
      ClientResponse(n.role.queue[i].id, ReadAnswer(n.role.queue[i].command, n.applied)))
    ensures MailOk(h, cluster, e)
  {
    hide HistoryOk, DurableOk, PeerOk, AnswerOk, Quorum;
    NodeInCluster(h, cluster, n);
    assert PendingOk(h, n.log.term, n.role.queue[i]);
    ReadAnswered(h, cluster, n, n.role.queue[i], confirmed);
  }

  /** A peer confirmed our leadership at a read sequence number. */
  lemma ConfirmReadGood(cluster: set<NodeID>, now: Moment, h: History, n: Node, from: NodeID, readSeq: nat)
    requires HistoryOk(h, cluster) && NodeOk(h, cluster, n) && n.role.Leader? && from in n.peers
    requires Confirmed(h, n.log.term, from, readSeq)
    ensures Good(cluster, now, h, h, n.id, ConfirmRead(n, from, readSeq))
    ensures var n' := ConfirmRead(n, from, readSeq).node; n'.role.Leader? && n' == n.(role := n'.role)
  {
    hide HistoryOk, DurableOk, PendingOk, Confirmed, Good, MaybeRead;
    var p := n.role.progress[from];
    assert PeerOk(h, n.log.term, from, p);
    if readSeq > p.readSeq {
      PeerUpdated(h, cluster, n, from, AdvanceRead(p, readSeq));
      MaybeReadGood(cluster, now, h, WithProgress(n, from, AdvanceRead(p, readSeq)));
    } else {
      assert Good(cluster, now, h, h, n.id, Quiet(n)) by { GoodStill(cluster, now, h, Quiet(n)); }
    }
  }

  // ---------------------------------------------------------------- commits

  /** The quorum behind a commit: everyone whose match index reached it acknowledged it. */
  lemma QuorumAcked(h: History, cluster: set<NodeID>, n: Node, index: Index)
    requires NodeOk(h, cluster, n) && n.role.Leader?
    requires TableFits(n) && MatchTable(n).Keys == cluster
    requires index > 0 && IsQuorumValue(MatchTable(n), QuorumSize(n), index)
    ensures index <= |n.log.entries|
    ensures Quorum(cluster, AtLeast(MatchTable(n), index))
    ensures forall p :: p in AtLeast(MatchTable(n), index) ==>
      (n.log.term, p) in h.acks && h.acks[(n.log.term, p)] >= index
  {
    hide PendingOk, Confirmed, AcksKept, CommitsKept, TermCurrent, VoteMatches, EntriesOk;
    var m := MatchTable(n);
    forall p | p in m ensures m[p] <= |n.log.entries| && Acked(h, n.log.term, p, m[p]) {
      if p != n.id { assert PeerOk(h, n.log.term, p, n.role.progress[p]); }
    }
    TableQuorum(cluster, n, m, index);
  }

  lemma ApplyAndAnswerGood(cluster: set<NodeID>, now: Moment, h: History, n: Node)
    requires HistoryOk(h, cluster) && NodeOk(h, cluster, n) && n.role.Leader?
    ensures Good(cluster, now, h, h, n.id, ApplyAndAnswer(n))
    ensures ApplyAndAnswer(n).node.role.Leader? && ApplyAndAnswer(n).node.log == n.log
  {
    hide HistoryOk, DurableOk, PeerOk, PendingOk, WriteOk, MailOk;
    ApplyKeeps(h, cluster, n);
    var o := ApplyAndAnswer(n);
    assert o.node == MaybeApply(n).(role := o.node.role);
    RoleIrrelevant(h, cluster, MaybeApply(n), o.node);
    AppliedNext(h, cluster, n);
    var todo := Between(n.log.entries, |n.applied|, n.log.commitIndex);
    forall e | e in o.sent ensures MailOk(h, cluster, e) {
      var i :| i in n.role.writes && |n.applied| < i <= |n.applied| + |todo|
               && e == Mail(n, n.role.writes[i].from,
                    ClientResponse(n.role.writes[i].id, WriteAnswer(n.applied + todo[..i - |n.applied|])));
      assert n.applied + todo[..i - |n.applied|] == n.log.entries[..i];
      WrittenMail(h, cluster, n, i);
    }
    GoodStill(cluster, now, h, o);
  }

  /** What is applied next goes on where the applied entries end. */
  lemma AppliedNext(h: History, cluster: set<NodeID>, n: Node)
    requires NodeOk(h, cluster, n)
    ensures n.log.commitIndex <= |n.log.entries| && n.applied <= n.log.entries
    ensures var todo := Between(n.log.entries, |n.applied|, n.log.commitIndex);
      && |n.applied| + |todo| <= |n.log.entries|
      && todo == n.log.entries[|n.applied|..|n.applied| + |todo|]
      && (todo != [] ==> |n.applied| + |todo| <= n.log.commitIndex)
  {
    hide RoleOk, EntriesOk, VoteMatches, AcksKept, TermCurrent, Committed;
  }

  /** The answer to a pending write that is committed. */
  lemma WrittenMail(h: History, cluster: set<NodeID>, n: Node, i: Index)
    requires NodeOk(h, cluster, n) && n.role.Leader? && i in n.role.writes && i <= n.log.commitIndex <= |n.log.entries|
    ensures var w := n.role.writes[i];
      MailOk(h, cluster, Mail(n, w.from, ClientResponse(w.id, WriteAnswer(n.log.entries[..i]))))
  {
    hide EntriesOk, VoteMatches, AcksKept, TermCurrent, PeerOk, PendingOk, Committed, WroteAt;
    CommittedShorter(h, n.log.entries[..n.log.commitIndex], n.log.term, i);
    assert n.log.entries[..n.log.commitIndex][..i] == n.log.entries[..i];
    assert WriteOk(h, n.log.term, n.log.entries, i, n.role.writes[i]);
    var state := n.log.entries[..i];
    assert state[|state| - 1] == n.log.entries[i - 1];
    assert WrittenOk(h, n.log.term, n.role.writes[i].from, n.role.writes[i].id, state);
  }

  /** The leader's node after committing `index`. */
  lemma CommittedLeader(h: History, h': History, cluster: set<NodeID>, n: Node, c: CommitEvent)
    requires Grows(h, h') && h' == AddCommit(h, c)
    requires NodeOk(h, cluster, n) && n.role.Leader?
    requires c.term == n.log.term && n.log.commitIndex < c.index <= |n.log.entries|
    ensures Commit(n.log, c.index).Done?
    ensures NodeOk(h', cluster, n.(log := Commit(n.log, c.index).log))
  {
    hide PendingOk, PeerOk, AcksRetained, LogOk, Confirmed;
    var n' := n.(log := Commit(n.log, c.index).log);
    LogGrows(h, h', n.log.entries);
    AcksRetainedGrow(h, h', n.log.entries, n.id, n.log.term + 1, n.log.term + 1);
    assert CommitCovers(h', c, n.log.entries[..c.index], n.log.term);
    CommittedGrows(h, h', n.applied, n.log.term, n.log.term);
    PeersKept(h, h', n);
  }

  lemma PeersKept(h: History, h': History, n: Node)
    requires Grows(h, h') && n.role.Leader? && LeaderOk(h, n)
    requires h'.reigns == h.reigns && h'.acks == h.acks
    ensures forall p :: p in n.role.progress ==> PeerOk(h', n.log.term, p, n.role.progress[p])
    ensures forall i :: 0 <= i < |n.role.queue| ==> PendingOk(h', n.log.term, n.role.queue[i])
  {
    forall p | p in n.role.progress ensures PeerOk(h', n.log.term, p, n.role.progress[p]) {
      assert PeerOk(h, n.log.term, p, n.role.progress[p]);
    }
    forall i | 0 <= i < |n.role.queue| ensures PendingOk(h', n.log.term, n.role.queue[i]) {
      assert PendingOk(h, n.log.term, n.role.queue[i]);
    }
  }

  /** Section 5.4.2 of the Raft paper: only entries of the leader's own term are committed by counting. */
  lemma MaybeCommitGood(cluster: set<NodeID>, now: Moment, h: History, n: Node) returns (h': History)
    requires HistoryOk(h, cluster) && NodeOk(h, cluster, n) && n.role.Leader?
    ensures Good(cluster, now, h, h', n.id, MaybeCommit(n))
    ensures MaybeCommit(n).node.role.Leader? && MaybeCommit(n).node.log.term == n.log.term
    ensures h'.reigns == h.reigns
  {
    hide HistoryOk, NodeOk, MailOk, Good, StaticOk, MaybeCommit, MaybeRead, ApplyAndAnswer, QuorumValue, MatchTable;
    hide QuorumSize, AtLeast;
    ReadTableOf(h, cluster, n);
    CommitMeans(n);
    var index := QuorumValue(MatchTable(n), QuorumSize(n));
    h' := h;
    if index > n.log.commitIndex {
      QuorumAcked(h, cluster, n, index);
      if n.log.entries[index - 1].term == n.log.term {
        h' := CommitNow(cluster, now, h, n, index);
        return;
      }
    }
    QuietGood(cluster, now, h, n);
  }

  /** What a leader does with an index of its own term that a quorum has. */
  ghost function CommitTo(n: Node, index: Index): Out
    requires n.role.Leader? && n.log.commitIndex < index <= |n.log.entries|
  {
    var o := ApplyAndAnswer(n.(log := n.log.(commitIndex := index, commitTerm := n.log.entries[index - 1].term)));
    if n.log.commitTerm != n.log.term then Join(o, MaybeRead(o.node)) else o
  }

  lemma CommitNow(cluster: set<NodeID>, now: Moment, h: History, n: Node, index: Index) returns (h': History)
    requires HistoryOk(h, cluster) && NodeOk(h, cluster, n) && n.role.Leader?
    requires n.log.commitIndex < index <= |n.log.entries| && n.log.entries[index - 1].term == n.log.term
    requires Quorum(cluster, AtLeast(MatchTable(n), index))
    requires forall p :: p in AtLeast(MatchTable(n), index) ==>
      (n.log.term, p) in h.acks && h.acks[(n.log.term, p)] >= index
    ensures Good(cluster, now, h, h', n.id, CommitTo(n, index))
    ensures CommitTo(n, index).node.role.Leader? && CommitTo(n, index).node.log.term == n.log.term
    ensures h'.reigns == h.reigns
  {
    hide HistoryOk, NodeOk, Good, AtLeast, MatchTable, MaybeRead, ApplyAndAnswer;
    h' := CommitLogged(cluster, now, h, n, index);
    var n1 := n.(log := n.log.(commitIndex := index, commitTerm := n.log.entries[index - 1].term));
    GoodMeans(cluster, now, h, h', n.id, Quiet(n1));
    ApplyAndAnswerGood(cluster, now, h', n1);
    var o1 := ApplyAndAnswer(n1);
    GoodMeans(cluster, now, h', h', n.id, o1);
    GoodJoin(cluster, now, h, h', h', n.id, Quiet(n1), o1);
    assert Join(Quiet(n1), o1) == o1;
    if n.log.commitTerm != n.log.term {
      MaybeReadGood(cluster, now, h', o1.node);
      GoodJoin(cluster, now, h, h', h', n.id, o1, MaybeRead(o1.node));
    }
  }

  lemma GoodMeans(cluster: set<NodeID>, now: Moment, h: History, h': History, id: NodeID, o: Out)
    requires Good(cluster, now, h, h', id, o)
    ensures HistoryOk(h', cluster) && NodeOk(h', cluster, o.node) && o.node.id == id
  {
    hide HistoryOk, NodeOk, MailOk;
  }

  /** The commit event, and the leader's log with the commit index moved. */
  lemma CommitLogged(cluster: set<NodeID>, now: Moment, h: History, n: Node, index: Index) returns (h': History)
    requires HistoryOk(h, cluster) && NodeOk(h, cluster, n) && n.role.Leader?
    requires n.log.commitIndex < index <= |n.log.entries| && n.log.entries[index - 1].term == n.log.term
    requires Quorum(cluster, AtLeast(MatchTable(n), index))
    requires forall p :: p in AtLeast(MatchTable(n), index) ==>
      (n.log.term, p) in h.acks && h.acks[(n.log.term, p)] >= index
    ensures Commit(n.log, index) == Done(n.log.(commitIndex := index, commitTerm := n.log.entries[index - 1].term))
    ensures Good(cluster, now, h, h', n.id, Quiet(n.(log := Commit(n.log, index).log)))
    ensures h'.reigns == h.reigns
  {
    hide ReignsOk, BallotsOk, AcksOk, CommitsOk, ArrivalsOk, DurableOk, PeerOk, PendingOk, AtLeast, Grows, ActedOnly;
    var c := CommitEvent(n.log.term, index, AtLeast(MatchTable(n), index));
    assert CommitOk(h, cluster, c);
    AddCommitOk(h, cluster, c);
    h' := AddCommit(h, c);
    CommittedLeader(h, h', cluster, n, c);
    assert ArrivalsNow(h, h', n.id, now);
  }

  lemma ConfirmMatchGood(cluster: set<NodeID>, now: Moment, h: History, n: Node, from: NodeID, matchIndex: Index)
    returns (h': History)
    requires HistoryOk(h, cluster) && NodeOk(h, cluster, n) && n.role.Leader? && from in n.peers
    requires Acked(h, n.log.term, from, matchIndex) && matchIndex <= |n.log.entries|
    ensures Good(cluster, now, h, h', n.id, ConfirmMatch(n, from, matchIndex))
    ensures ConfirmMatch(n, from, matchIndex).node.role.Leader?
    ensures ConfirmMatch(n, from, matchIndex).node.log.term == n.log.term
    ensures h'.reigns == h.reigns
  {
    hide HistoryOk, DurableOk, PendingOk, Confirmed, Good, MaybeCommit;
    var p := n.role.progress[from];
    assert PeerOk(h, n.log.term, from, p);
    if matchIndex > p.matchIndex {
      PeerUpdated(h, cluster, n, from, AdvanceMatch(p, matchIndex));
      h' := MaybeCommitGood(cluster, now, h, WithProgress(n, from, AdvanceMatch(p, matchIndex)));
    } else {
      h' := h;
      GoodStill(cluster, now, h, Quiet(n));
    }
  }

  // ---------------------------------------------------------------- proposals

  /** What a proposal does to a node, whatever the history. */
  lemma ProposeShape(n: Node, command: Option<Command>)
    requires n.role.Leader? && n.log.term > 0 && n.role.progress.Keys == n.peers && n.maxAppend >= 1
    requires Indexed(n.log.entries)
    requires forall p :: p in n.role.progress ==> ProgressValid(n.role.progress[p], |n.log.entries|)
    ensures var o := Propose(n, command); var e := Entry(|n.log.entries| + 1, n.log.term, command);
      && o.node.role.Leader?
      && o.node == n.(log := n.log.(entries := n.log.entries + [e]),
                      role := n.role.(progress := o.node.role.progress))
      && o.node.role.progress.Keys == n.peers
      && (forall p :: p in n.peers ==>
            && o.node.role.progress[p] == n.role.progress[p].(nextIndex := o.node.role.progress[p].nextIndex)
            && ProgressValid(o.node.role.progress[p], |n.log.entries| + 1))
      && (forall m :: m in o.sent ==>
            && m.from == n.id && m.term == n.log.term && m.to in n.peers && m.message.Append?
            && AppendFits(o.node.log.entries, m.message.baseIndex, m.message.baseTerm, m.message.entries))
  {
    hide PlanAppend, AppendFits;
    var o := Propose(n, command);
    var entries := n.log.entries + [Entry(|n.log.entries| + 1, n.log.term, command)];
    var n' := n.(log := n.log.(entries := entries));
    assert Indexed(entries);
    forall p | p in n.role.progress ensures ProgressValid(n.role.progress[p], |entries|) {}
    forall p | p in n.role.progress
      ensures var plan := PlanAppend(entries, n.role.progress[p], false, n.maxAppend);
        && plan.progress == n.role.progress[p].(nextIndex := plan.progress.nextIndex)
        && ProgressValid(plan.progress, |entries|)
        && (plan.message.Some? ==>
              && plan.message.value.Append?
              && var m := plan.message.value; AppendFits(entries, m.baseIndex, m.baseTerm, m.entries))
    {
      PlanShape(entries, n.role.progress[p], false, n.maxAppend);
    }
  }

  /** A node that appended an entry of its own reign. */
  lemma AppendedDurable(h: History, h': History, cluster: set<NodeID>, n: Node, n': Node, e: Entry)
    requires Grows(h, h') && ReignsOk(h', cluster) && DurableOk(h, cluster, n)
    requires n' == n.(log := n.log.(entries := n.log.entries + [e]), role := n'.role) && e.term == n.log.term
    requires n.log.term in h'.reigns && h'.reigns[n.log.term].log == n'.log.entries
    requires h'.ballots == h.ballots && h'.acks == h.acks[(n.log.term, n.id) := |n.log.entries| + 1]
    requires TermCurrent(h', n.id, n.log.term)
    ensures DurableOk(h', cluster, n')
  {
    hide ReignShape, Elected, LogOk, TermCurrent, Committed, Retained;
    var t := n.log.term;
    var l := n.log.entries;
    var l' := n'.log.entries;
    assert LogOk(h', l');
    CommitsKeptGrow(h, h', n.log, n.applied);
    assert l'[..n.log.commitIndex] == l[..n.log.commitIndex];
    AppendedAcks(h, h', n.id, t, l, l');
  }

  lemma AppendedAcks(h: History, h': History, id: NodeID, t: Term, l: seq<Entry>, l': seq<Entry>)
    requires Grows(h, h') && AcksKept(h, id, l, t) && l <= l'
    requires t in h'.reigns && h'.reigns[t].log == l'
    requires h'.acks == h.acks[(t, id) := |l'|]
    ensures AcksKept(h', id, l', t)
  {
    var bound := t + 1;
    forall u: Term, k: Index | u < bound && (u, id) in h'.acks && k <= h'.acks[(u, id)]
      ensures Retained(h', l', u, k, bound) {
      if u != t {
        assert Retained(h, l, u, k, bound);
        RetainedGrows(h, h', l, u, k, bound);
      }
    }
  }

  /** The leader part of the invariant after a proposal extended the reign. */
  lemma ProposedPeers(h: History, h': History, n: Node, n': Node)
    requires Grows(h, h') && n.role.Leader? && n'.role.Leader? && n'.log.term == n.log.term
    requires n.log.term in h.reigns && n.log.term in h'.reigns
    requires forall p :: p in n.role.progress ==> PeerOk(h, n.log.term, p, n.role.progress[p])
    requires n'.role.progress.Keys == n.role.progress.Keys
    requires forall p :: p in n'.role.progress ==>
      && n'.role.progress[p] == n.role.progress[p].(nextIndex := n'.role.progress[p].nextIndex)
      && ProgressValid(n'.role.progress[p], |h'.reigns[n.log.term].log|)
    ensures forall p :: p in n'.role.progress ==> PeerOk(h', n.log.term, p, n'.role.progress[p])
  {
    forall p | p in n'.role.progress ensures PeerOk(h', n.log.term, p, n'.role.progress[p]) {
      assert PeerOk(h, n.log.term, p, n.role.progress[p]);
      ConfirmedGrows(h, h', n.log.term, p, n.role.progress[p].readSeq);
    }
  }

  lemma ProposeLeader(h: History, h': History, n: Node, n': Node, e: Entry)
    requires Grows(h, h') && n.role.Leader? && LeaderOk(h, n) && n'.role.Leader?
    requires h' == Extend(h, n.log.term, e)
    requires n' == n.(log := n.log.(entries := n.log.entries + [e]), role := n.role.(progress := n'.role.progress))
    requires n'.role.progress.Keys == n.peers
    requires forall p :: p in n.peers ==>
      && n'.role.progress[p] == n.role.progress[p].(nextIndex := n'.role.progress[p].nextIndex)
      && ProgressValid(n'.role.progress[p], |n.log.entries| + 1)
    ensures LeaderOk(h', n')
  {
    hide PeerOk, WriteOk;
    ProposedPeers(h, h', n, n');
    forall i | 0 <= i < |n'.role.queue| ensures PendingOk(h', n.log.term, n'.role.queue[i]) {
      assert PendingOk(h, n.log.term, n.role.queue[i]);
    }
    WritesGrow(h, h', n.log.term, n.log.entries, n'.log.entries, n.role.writes);
  }

  lemma ExtendCurrent(h: History, id: NodeID, t: Term, e: Entry)
    requires t in h.reigns && TermCurrent(h, id, t)
    ensures TermCurrent(Extend(h, t, e), id, t)
  {}

  lemma ExtendArrivals(h: History, t: Term, e: Entry, n: NodeID, now: Moment)
    requires t in h.reigns
    ensures ArrivalsNow(h, Extend(h, t, e), n, now)
  {}

  lemma ProposeReady(h: History, cluster: set<NodeID>, n: Node)
    requires HistoryOk(h, cluster) && NodeOk(h, cluster, n) && n.role.Leader?
    ensures n.log.term > 0 && Indexed(n.log.entries)
    ensures forall p :: p in n.role.progress ==> ProgressValid(n.role.progress[p], |n.log.entries|)
    ensures forall u :: (u, n.id) in h.ballots ==> u <= n.log.term
  {
    hide BallotsOk, AcksOk, CommitsOk, ArrivalsOk, PendingOk, AcksKept, CommitsKept, TermCurrent, LogOk, WriteOk;
    assert ReignShape(h.reigns[n.log.term], n.log.term);
    forall p | p in n.role.progress ensures ProgressValid(n.role.progress[p], |n.log.entries|) {
      assert PeerOk(h, n.log.term, p, n.role.progress[p]);
    }
    LogIndexed(h, n.log.entries);
  }

  lemma ProposeGood(cluster: set<NodeID>, now: Moment, h: History, n: Node, command: Option<Command>)
    returns (h': History)
    requires HistoryOk(h, cluster) && NodeOk(h, cluster, n) && n.role.Leader?
    ensures Good(cluster, now, h, h', n.id, Propose(n, command))
    ensures Propose(n, command).node.role.Leader?
    ensures |Propose(n, command).node.log.entries| == |n.log.entries| + 1
    ensures Propose(n, command).node.log.term == n.log.term && h'.commits == h.commits
    ensures Propose(n, command).node.role.writes == n.role.writes
    ensures Propose(n, command).node.log.entries == n.log.entries + [Entry(|n.log.entries| + 1, n.log.term, command)]
  {
    hide ReignsOk, BallotsOk, AcksOk, CommitsOk, ArrivalsOk, PendingOk, VoteMatches, AcksKept, CommitsKept, TermCurrent;
    hide LogOk, Propose, Grows, ActedOnly, ArrivalsNow, AppendFits, WriteOk, PeerOk;
    var t := n.log.term;
    var e := Entry(|n.log.entries| + 1, t, command);
    var o := Propose(n, command);
    ProposeReady(h, cluster, n);
    ProposeShape(n, command);
    ExtendOk(h, cluster, t, e);
    h' := Extend(h, t, e);
    ExtendCurrent(h, n.id, t, e);
    ExtendArrivals(h, t, e, n.id, now);
    ProposeLeader(h, h', n, o.node, e);
    AppendedDurable(h, h', cluster, n, o.node, e);
    hide DurableOk, HistoryOk;
    ProposedMail(h', cluster, o);
  }

  lemma ProposedMail(h: History, cluster: set<NodeID>, o: Out)
    requires NodeOk(h, cluster, o.node) && o.node.role.Leader?
    requires forall m :: m in o.sent ==>
      && m.from == o.node.id && m.term == o.node.log.term && m.to in o.node.peers && m.message.Append?
      && AppendFits(o.node.log.entries, m.message.baseIndex, m.message.baseTerm, m.message.entries)
    ensures forall m :: m in o.sent ==> MailOk(h, cluster, m)
  {
    hide AppendFits, PeerOk, PendingOk, AcksKept, CommitsKept, TermCurrent, EntriesOk, VoteMatches;
  }
}
