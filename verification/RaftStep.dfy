/**
 * Elections, client requests, and whole node steps keep the invariant of
 * RaftInvariant.
 *
 * - A candidate with a quorum of votes starts a reign: no other node can have
 *   one in the term, since the quorums share an elector with one vote.
 * - A candidate that hears from the leader of its term follows it.
 * - A read that arrives is recorded with every node's term and all commits.
 * - A node that leads, or follows a leader, in its term is only ever sent what
 *   it expects in that role; whatever else would halt it shows that it has
 *   restarted in the term.
 *
 * `StepGood`, `TickGood` and `StartGood` put the parts together: they are the
 * three things a node does, and RaftCluster needs nothing else about nodes.
 */
module RaftStep {
  import opened Common
  import opened RaftLog
  import opened RaftNode
  import opened RaftHistory
  import opened RaftGrowth
  import opened RaftInvariant
  import opened RaftFollower
  import opened RaftLeader

  // ---------------------------------------------------------------- elections

  /** Election safety, section 5.2 of the Raft paper: a second winner would share an elector. */
  lemma NoOtherLeader(h: History, cluster: set<NodeID>, n: Node)
    requires ReignsOk(h, cluster) && n.role.Candidate? && CandidateOk(h, cluster, n)
    requires Quorum(cluster, n.role.votes)
    ensures n.log.term !in h.reigns
  {
    var t := n.log.term;
    if t in h.reigns {
      assert Elected(h, cluster, t);
      var p := QuorumsMeet(cluster, n.role.votes, h.reigns[t].quorum);
    }
  }

  lemma VotesWin(h: History, cluster: set<NodeID>, n: Node)
    requires BallotsOk(h) && n.role.Candidate? && CandidateOk(h, cluster, n)
    ensures forall p :: p in n.role.votes ==> Winning(h, n.log.term, n.id, n.log.entries, p)
  {
    hide AcksRetained, LogOk;
    forall p | p in n.role.votes ensures Winning(h, n.log.term, n.id, n.log.entries, p) {
      assert BallotOk(h, n.log.term, p);
    }
  }

  lemma ElectCurrent(h: History, h': History, id: NodeID, t: Term)
    requires TermCurrent(h, id, t) && t !in h.reigns
    requires t in h'.reigns && h'.reigns[t].arrivals == []
    requires forall u :: u in h'.reigns && u != t ==> u in h.reigns && h'.reigns[u] == h.reigns[u]
    ensures TermCurrent(h', id, t)
  {}

  lemma ElectArrivals(h: History, h': History, t: Term, n: NodeID, now: Moment)
    requires t in h'.reigns && h'.reigns[t].arrivals == []
    requires forall u :: u in h'.reigns && u != t ==> u in h.reigns && h'.reigns[u] == h.reigns[u]
    ensures ArrivalsNow(h, h', n, now)
  {}

  /** The new leader with its noop appended and sent. */
  function Crowned(n: Node): Out { Propose(n.(role := Leader(NewProgress(n), map[], [], 0)), None) }

  lemma CrownedLeader(h: History, h': History, n: Node, n': Node, noop: Entry, quorum: set<NodeID>)
    requires forall c :: c in h.commits ==> c.term in h.reigns
    requires n.log.term !in h.reigns && n'.role.Leader?
    requires h' == Elect(h, n.log.term, n.id, n.log.entries, noop, quorum)
    requires n'.id == n.id && n'.peers == n.peers && n'.log == n.log.(entries := n.log.entries + [noop])
    requires n'.role.readSeq == 0 && n'.role.queue == [] && n'.role.writes == map[] && n'.role.progress.Keys == n.peers
    requires forall p :: p in n.peers ==>
      && n'.role.progress[p].matchIndex == 0 && n'.role.progress[p].readSeq == 0
      && ProgressValid(n'.role.progress[p], |n.log.entries| + 1)
    ensures LeaderOk(h', n')
  {}

  lemma CrownedShape(cluster: set<NodeID>, h: History, n: Node)
    requires DurableOk(h, cluster, n) && n.log.term > 0
    ensures var o := Crowned(n); var noop := Entry(|n.log.entries| + 1, n.log.term, None);
      && o.node.role.Leader?
      && o.node == n.(log := n.log.(entries := n.log.entries + [noop]), role := o.node.role)
      && o.node.role.readSeq == 0 && o.node.role.queue == [] && o.node.role.writes == map[]
      && o.node.role.progress.Keys == n.peers
      && (forall p :: p in n.peers ==>
            && o.node.role.progress[p].matchIndex == 0 && o.node.role.progress[p].readSeq == 0
            && ProgressValid(o.node.role.progress[p], |n.log.entries| + 1))
      && (forall m :: m in o.sent ==>
            && m.from == n.id && m.term == n.log.term && m.to in n.peers && m.message.Append?
            && AppendFits(o.node.log.entries, m.message.baseIndex, m.message.baseTerm, m.message.entries))
  {
    hide VoteMatches, AcksKept, CommitsKept, TermCurrent, LogOk, Propose, AppendFits;
    LogIndexed(h, n.log.entries);
    var n0 := n.(role := Leader(NewProgress(n), map[], [], 0));
    assert NewProgress(n).Keys == n.peers;
    ProposeShape(n0, None);
  }

  lemma CommitsHaveReigns(h: History, cluster: set<NodeID>)
    requires CommitsOk(h, cluster)
    ensures forall c :: c in h.commits ==> c.term in h.reigns
  {
    forall c | c in h.commits ensures c.term in h.reigns { assert CommitOk(h, cluster, c); }
  }

  lemma ElectHistory(cluster: set<NodeID>, now: Moment, h: History, n: Node, noop: Entry)
    requires HistoryOk(h, cluster) && NodeOk(h, cluster, n) && n.role.Candidate?
    requires Quorum(cluster, n.role.votes) && noop == Entry(|n.log.entries| + 1, n.log.term, None)
    ensures n.log.term !in h.reigns && (forall c :: c in h.commits ==> c.term in h.reigns)
    ensures var h' := Elect(h, n.log.term, n.id, n.log.entries, noop, n.role.votes);
      && HistoryOk(h', cluster) && Grows(h, h') && ActedOnly(h, h', n.id)
      && ArrivalsNow(h, h', n.id, now) && TermCurrent(h', n.id, n.log.term)
  {
    hide ReignsOk, BallotsOk, AcksOk, CommitsOk, ArrivalsOk, AcksKept, CommitsKept, TermCurrent, LogOk, Grows,
      ActedOnly, ArrivalsNow, Winning, Quorum;
    CommitsHaveReigns(h, cluster);
    NoOtherLeader(h, cluster, n);
    VotesWin(h, cluster, n);
    ElectOk(h, cluster, n.log.term, n.id, n.log.entries, noop, n.role.votes);
    var h' := Elect(h, n.log.term, n.id, n.log.entries, noop, n.role.votes);
    ElectCurrent(h, h', n.id, n.log.term);
    ElectArrivals(h, h', n.log.term, n.id, now);
  }

  lemma CrownGood(cluster: set<NodeID>, now: Moment, h: History, n: Node) returns (h': History)
    requires HistoryOk(h, cluster) && NodeOk(h, cluster, n) && n.role.Candidate?
    requires Quorum(cluster, n.role.votes)
    ensures Good(cluster, now, h, h', n.id, Crowned(n)) && Crowned(n).node.role.Leader?
    ensures h'.commits == h.commits
  {
    hide ReignsOk, BallotsOk, AcksOk, CommitsOk, ArrivalsOk, DurableOk, TermCurrent, Grows, ActedOnly, ArrivalsNow,
      AppendFits, Crowned, Quorum, ProgressValid;
    var noop := Entry(|n.log.entries| + 1, n.log.term, None);
    CrownedShape(cluster, h, n);
    var o := Crowned(n);
    ElectHistory(cluster, now, h, n, noop);
    h' := Elect(h, n.log.term, n.id, n.log.entries, noop, n.role.votes);
    CrownedLeader(h, h', n, o.node, noop, n.role.votes);
    AppendedDurable(h, h', cluster, n, o.node, noop);
    hide HistoryOk, LeaderOk, CandidateOk;
    ProposedMail(h', cluster, o);
  }

  lemma BecomeLeaderGood(cluster: set<NodeID>, now: Moment, h: History, n: Node) returns (h': History)
    requires HistoryOk(h, cluster) && NodeOk(h, cluster, n) && n.role.Candidate?
    requires |n.role.votes| >= QuorumSize(n)
    ensures Good(cluster, now, h, h', n.id, BecomeLeader(n))
  {
    assert Quorum(cluster, n.role.votes) by { VotersQuorum(h, cluster, n); }
    hide HistoryOk, DurableOk, MailOk, Grows, ActedOnly, ArrivalsNow, LeaderOk, MaybeCommit, SendHeartbeats, Propose;
    var o1 := Crowned(n);
    var h1 := CrownGood(cluster, now, h, n);
    var o2 := MaybeCommit(o1.node);
    var h2 := MaybeCommitGood(cluster, now, h1, o1.node);
    GoodJoin(cluster, now, h, h1, h2, n.id, o1, o2);
    SendHeartbeatsGood(cluster, now, h2, o2.node);
    GoodJoin(cluster, now, h, h2, h2, n.id, Join(o1, o2), SendHeartbeats(o2.node));
    h' := h2;
  }

  lemma VotersQuorum(h: History, cluster: set<NodeID>, n: Node)
    requires NodeOk(h, cluster, n) && n.role.Candidate? && |n.role.votes| >= QuorumSize(n)
    ensures Quorum(cluster, n.role.votes)
  {
    assert cluster == n.peers + {n.id};
  }

  lemma VoteRecorded(h: History, cluster: set<NodeID>, n: Node, e: Envelope)
    requires NodeOk(h, cluster, n) && n.role.Candidate?
    requires MailOk(h, cluster, e) && e.to == n.id && e.term == n.log.term && e.message == CampaignResponse(true)
    ensures NodeOk(h, cluster, n.(role := Candidate(n.role.votes + {e.from})))
  {
    hide DurableOk;
    RoleIrrelevant(h, cluster, n, n.(role := Candidate(n.role.votes + {e.from})));
  }

  lemma LeaderSent(h: History, cluster: set<NodeID>, e: Envelope)
    requires MailOk(h, cluster, e) && (e.message.Heartbeat? || e.message.Append? || e.message.Read?)
    ensures FromLeader(h, e)
  {}

  lemma ConcedeGood(cluster: set<NodeID>, now: Moment, h: History, n: Node, e: Envelope) returns (h': History)
    requires HistoryOk(h, cluster) && NodeOk(h, cluster, n) && n.role.Candidate?
    requires MailOk(h, cluster, e) && e.to == n.id && e.term == n.log.term
    requires e.message.Heartbeat? || e.message.Append? || e.message.Read?
    ensures var follower := n.(role := Follower(Some(e.from), {}));
      Good(cluster, now, h, h', n.id, Quiet(follower)) && HistoryOk(h', cluster) && NodeOk(h', cluster, follower)
    ensures MailOk(h', cluster, e) && h'.commits == h.commits && e.from != e.to
  {
    hide HistoryOk, DurableOk, RoleOk, MailOk, Grows, ActedOnly, ArrivalsNow, CommitsNow;
    LeaderSent(h, cluster, e);
    h' := Ack(h, n.log.term, n.id, 0);
    FollowGood(cluster, now, h, n, n.(role := Follower(Some(e.from), {})));
    MailGrows(h, h', cluster, e);
  }

  /** A candidate that hears from the leader of its term follows it. */
  lemma LostElectionGood(cluster: set<NodeID>, now: Moment, h: History, n: Node, e: Envelope) returns (h': History)
    requires HistoryOk(h, cluster) && NodeOk(h, cluster, n) && n.role.Candidate?
    requires MailOk(h, cluster, e) && e.to == n.id && e.term == n.log.term
    requires e.message.Heartbeat? || e.message.Append? || e.message.Read?
    ensures Good(cluster, now, h, h', n.id, StepFollower(n.(role := Follower(Some(e.from), {})), e))
  {
    hide HistoryOk, NodeOk, MailOk, Good, StepFollower;
    var follower := n.(role := Follower(Some(e.from), {}));
    var h1 := ConcedeGood(cluster, now, h, n, e);
    h' := StepFollowerGood(cluster, now, h1, follower, e);
    GoodJoin(cluster, now, h, h1, h', n.id, Quiet(follower), StepFollower(follower, e));
    assert Join(Quiet(follower), StepFollower(follower, e)) == StepFollower(follower, e);
  }

  /** A candidate is neither the leader of its term, nor has it followed one and not restarted since. */
  lemma CandidateMail(h: History, cluster: set<NodeID>, n: Node, e: Envelope)
    requires NodeOk(h, cluster, n) && n.role.Candidate?
    requires MailOk(h, cluster, e) && e.to == n.id && e.term == n.log.term
    requires e.from != e.to || e.message.ClientRequest?
    ensures !e.message.HeartbeatResponse? && !e.message.AppendResponse? && !e.message.ReadResponse?
    ensures e.message.ClientRequest? ==> e.from == n.id
    ensures e.message.ClientResponse? ==> (n.log.term, n.id) in h.restarts
    ensures e.message.Campaign? ==> e.from != n.id
  {
    hide DurableOk;
  }

  /** Replying to a message without changing anything. */
  lemma ReplyGood(cluster: set<NodeID>, now: Moment, h: History, n: Node, to: NodeID, m: Message)
    requires HistoryOk(h, cluster) && NodeOk(h, cluster, n)
    requires (m == CampaignResponse(false) && to != n.id)
      || (m.ClientResponse? && !m.response.ReadAnswer? && !m.response.WriteAnswer?)
    requires m.ClientResponse? && to != n.id ==> n.role.Leader? && (n.log.term, to) in h.acks
    ensures Good(cluster, now, h, h, n.id, Out(n, {Mail(n, to, m)}))
  {
    hide HistoryOk, EntriesOk, VoteMatches, AcksKept, CommitsKept, TermCurrent, CandidateOk, PeerOk, PendingOk;
    GoodStill(cluster, now, h, Out(n, {Mail(n, to, m)}));
  }

  lemma StepCandidateGood(cluster: set<NodeID>, now: Moment, h: History, n: Node, e: Envelope) returns (h': History)
    requires HistoryOk(h, cluster) && NodeOk(h, cluster, n) && n.role.Candidate?
    requires MailOk(h, cluster, e) && e.to == n.id && e.term == n.log.term
    requires e.from != e.to || e.message.ClientRequest?
    ensures Good(cluster, now, h, h', n.id, StepCandidate(n, e))
  {
    CandidateMail(h, cluster, n, e);
    hide HistoryOk, NodeOk, MailOk, Good, StepFollower, BecomeLeader;
    h' := h;
    match e.message {
      case CampaignResponse(vote) =>
        if vote {
          VoteRecorded(h, cluster, n, e);
          var n' := n.(role := Candidate(n.role.votes + {e.from}));
          if |n'.role.votes| >= QuorumSize(n) {
            h' := BecomeLeaderGood(cluster, now, h, n');
          } else {
            QuietGood(cluster, now, h, n');
          }
        } else {
          QuietGood(cluster, now, h, n);
        }
      case Campaign(_, _) => ReplyGood(cluster, now, h, n, e.from, CampaignResponse(false));
      case Heartbeat(_, _, _) => h' := LostElectionGood(cluster, now, h, n, e);
      case Append(_, _, _) => h' := LostElectionGood(cluster, now, h, n, e);
      case Read(_) => h' := LostElectionGood(cluster, now, h, n, e);
      case ClientRequest(id, _) => ReplyGood(cluster, now, h, n, e.from, ClientResponse(id, Abort));
      case ClientResponse(_, _) => HaltGood(cluster, now, h, n, UnexpectedMessage);
    }
  }

  // ---------------------------------------------------------------- leader

  lemma OnHeartbeatResponseGood(cluster: set<NodeID>, now: Moment, h: History, n: Node, from: NodeID,
    matchIndex: Index, readSeq: nat)
    returns (h': History)
    requires HistoryOk(h, cluster) && NodeOk(h, cluster, n) && n.role.Leader? && from in n.peers
    requires Acked(h, n.log.term, from, matchIndex) && Confirmed(h, n.log.term, from, readSeq)
    requires matchIndex <= |n.log.entries|
    ensures Good(cluster, now, h, h', n.id, OnHeartbeatResponse(n, from, matchIndex, readSeq))
  {
    hide HistoryOk, DurableOk, MailOk, Grows, ActedOnly, ArrivalsNow, LeaderOk, ConfirmRead, Probe, ConfirmMatch,
      Confirmed, Acked;
    ReadSeqKnown(h, cluster, n, from, readSeq);
    var o1 := ConfirmRead(n, from, readSeq);
    ConfirmReadGood(cluster, now, h, n, from, readSeq);
    ConfirmReadKeeps(n, from, readSeq);
    var o2 := if matchIndex == 0 then Probe(o1.node, from, |n.log.entries|) else Quiet(o1.node);
    if matchIndex == 0 {
      ProbeGood(cluster, now, h, o1.node, from, |n.log.entries|);
    } else {
      QuietGood(cluster, now, h, o1.node);
    }
    GoodJoin(cluster, now, h, h, h, n.id, o1, o2);
    if matchIndex == 0 {
      ProbeKeeps(o1.node, from, |n.log.entries|);
    }
    assert o2.node.log == n.log && o2.node.peers == n.peers;
    h' := ConfirmMatchGood(cluster, now, h, o2.node, from, matchIndex);
    GoodJoin(cluster, now, h, h, h', n.id, Join(o1, o2), ConfirmMatch(o2.node, from, matchIndex));
  }

  lemma ReadSeqKnown(h: History, cluster: set<NodeID>, n: Node, from: NodeID, readSeq: nat)
    requires NodeOk(h, cluster, n) && n.role.Leader? && Confirmed(h, n.log.term, from, readSeq)
    ensures readSeq <= n.role.readSeq
  {
    hide DurableOk, PeerOk, PendingOk;
  }

  lemma ConfirmReadKeeps(n: Node, from: NodeID, readSeq: nat)
    requires n.role.Leader?
    ensures ConfirmRead(n, from, readSeq).node == n.(role := ConfirmRead(n, from, readSeq).node.role)
  {
    hide QuorumValue;
  }

  lemma ProbeKeeps(n: Node, from: NodeID, nextIndex: Index)
    ensures Probe(n, from, nextIndex).node == n.(role := Probe(n, from, nextIndex).node.role)
  {}

  lemma OnAppendResponseGood(cluster: set<NodeID>, now: Moment, h: History, n: Node, from: NodeID, matchIndex: Index,
    rejectIndex: Index)
    returns (h': History)
    requires HistoryOk(h, cluster) && NodeOk(h, cluster, n) && n.role.Leader? && from in n.peers
    requires (matchIndex == 0 <==> rejectIndex > 0) && Acked(h, n.log.term, from, matchIndex)
    requires matchIndex <= |n.log.entries| && rejectIndex <= |n.log.entries|
    ensures Good(cluster, now, h, h', n.id, OnAppendResponse(n, from, matchIndex, rejectIndex))
  {
    hide HistoryOk, DurableOk, MailOk, Grows, ActedOnly, ArrivalsNow, LeaderOk, Probe, ConfirmMatch, SendAppend,
      Confirmed, Acked;
    if matchIndex > 0 {
      var o1 := ConfirmMatch(n, from, matchIndex);
      h' := ConfirmMatchGood(cluster, now, h, n, from, matchIndex);
      assert from in o1.node.peers by { SamePeers(h, h', cluster, n, o1.node); }
      SendAppendGood(cluster, now, h', o1.node, from, false);
      GoodJoin(cluster, now, h, h', h', n.id, o1, SendAppend(o1.node, from, false));
    } else {
      h' := h;
      PeerKnown(h, cluster, n);
      ProbeGood(cluster, now, h, n, from, rejectIndex);
      QuietGood(cluster, now, h, n);
    }
  }

  lemma PeerKnown(h: History, cluster: set<NodeID>, n: Node)
    requires NodeOk(h, cluster, n) && n.role.Leader?
    ensures n.role.progress.Keys == n.peers
  {}

  lemma SamePeers(h: History, h': History, cluster: set<NodeID>, n: Node, n': Node)
    requires NodeOk(h, cluster, n) && NodeOk(h', cluster, n') && n.id == n'.id
    ensures n.peers == n'.peers
  {}

  /** A pending write is remembered, with the node to answer. */
  lemma WriteRemembered(h: History, cluster: set<NodeID>, n: Node, writes: map<Index, PendingWrite>)
    requires NodeOk(h, cluster, n) && n.role.Leader?
    requires forall i :: i in writes ==>
      || (i in n.role.writes && writes[i] == n.role.writes[i])
      || WriteOk(h, n.log.term, n.log.entries, i, writes[i])
    ensures NodeOk(h, cluster, n.(role := n.role.(writes := writes)))
  {
    hide DurableOk, PeerOk, PendingOk, WriteOk;
    RoleIrrelevant(h, cluster, n, n.(role := n.role.(writes := writes)));
  }

  /** Noting restarts or write requests changes nothing else. */
  lemma NotedOk(h: History, h': History, ids: set<NodeID>, n: NodeID, now: Moment)
    requires HistoryOk(h, ids) && h' == h.(restarts := h'.restarts, proposals := h'.proposals)
    requires h.restarts <= h'.restarts && h.proposals <= h'.proposals
    ensures HistoryOk(h', ids) && Grows(h, h') && ActedOnly(h, h', n) && ArrivalsNow(h, h', n, now)
  {
    assert Grows(h, h');
    hide ReignsOk, BallotsOk, AcksOk, CommitsOk, ArrivalsOk, Grows;
    AddArrivalRest(h, h', ids);
    ArrivalsGrow(h, h', ids);
  }

  lemma DurableNoted(h: History, h': History, ids: set<NodeID>, n: Node)
    requires Grows(h, h') && h' == h.(restarts := h'.restarts, proposals := h'.proposals) && DurableOk(h, ids, n)
    ensures DurableOk(h', ids, n)
  {
    hide Grows, EntriesOk, AcksKept, CommitsKept;
    ArrivedDurable(h, h', ids, n, n);
  }

  lemma LeaderNoted(h: History, h': History, n: Node)
    requires Grows(h, h') && h' == h.(restarts := h'.restarts, proposals := h'.proposals)
    requires n.role.Leader? && LeaderOk(h, n)
    ensures LeaderOk(h', n)
  {
    hide Grows, WriteOk;
    PeersKept(h, h', n);
    WritesGrow(h, h', n.log.term, n.log.entries, n.log.entries, n.role.writes);
  }

  /** The write request is recorded with the entry it was appended as. */
  lemma RequestGood(cluster: set<NodeID>, now: Moment, h: History, n: Node, p: Proposal)
    requires HistoryOk(h, cluster) && NodeOk(h, cluster, n) && n.role.Leader? && n.log.entries != []
    requires ProposedAt(p, n.id, now) && p.term == n.log.term && (n.log.term, p.from) in h.acks
    requires p.index == |n.log.entries| && n.log.entries[p.index - 1] == Entry(p.index, p.term, Some(p.command))
    ensures var h' := h.(proposals := h.proposals + {p});
      var n' := n.(role := n.role.(writes := n.role.writes[p.index := PendingWrite(p.from, p.id)]));
      && Good(cluster, now, h, h', n.id, Quiet(n')) && HistoryOk(h', cluster) && NodeOk(h', cluster, n')
  {
    hide HistoryOk, DurableOk, LeaderOk, Grows, ActedOnly, ArrivalsNow, ProposedAt, MailOk;
    var h' := h.(proposals := h.proposals + {p});
    NotedOk(h, h', cluster, n.id, now);
    DurableNoted(h, h', cluster, n);
    LeaderNoted(h, h', n);
    assert WroteAt(h', p.term, p.index, p.from, p.id, p.command) by { assert p in h'.proposals; }
    assert StaysEngaged(h', n);
    WriteRemembered(h', cluster, n, n.role.writes[p.index := PendingWrite(p.from, p.id)]);
  }

  lemma AcksKeep(cluster: set<NodeID>, now: Moment, h: History, h': History, n: NodeID, o: Out)
    requires Good(cluster, now, h, h', n, o)
    ensures h.acks.Keys <= h'.acks.Keys
  {
    hide HistoryOk, NodeOk, MailOk;
  }

  lemma OnWriteGood(cluster: set<NodeID>, now: Moment, h: History, n: Node, from: NodeID, id: RequestID,
    command: Command)
    returns (h': History)
    requires HistoryOk(h, cluster) && NodeOk(h, cluster, n) && n.role.Leader? && (n.log.term, from) in h.acks
    requires TermsCover(h, cluster, now) && n.id in cluster && now.terms[n.id] == n.log.term && now.leading
    requires now.delivered == Some(Envelope(from, n.log.term, n.id, ClientRequest(id, WriteRequest(command))))
    ensures Good(cluster, now, h, h', n.id, OnWrite(n, from, id, command))
  {
    hide HistoryOk, NodeOk, Good, MaybeCommit, Propose;
    var o1 := Propose(n, Some(command));
    var h1 := ProposeGood(cluster, now, h, n, Some(command));
    GoodMeans(cluster, now, h, h1, n.id, o1);
    AcksKeep(cluster, now, h, h1, n.id, o1);
    var p := Proposal(now.step, n.log.term, |o1.node.log.entries|, from, id, command);
    RequestGood(cluster, now, h1, o1.node, p);
    var h2 := h1.(proposals := h1.proposals + {p});
    var n1 := o1.node.(role := o1.node.role.(writes := o1.node.role.writes[p.index := PendingWrite(from, id)]));
    GoodJoin(cluster, now, h, h1, h2, n.id, o1, Quiet(n1));
    var o2 := Join(o1, Quiet(n1));
    if ClusterSize(n1) == 1 {
      h' := MaybeCommitGood(cluster, now, h2, n1);
      GoodJoin(cluster, now, h, h2, h', n.id, o2, MaybeCommit(n1));
      assert Join(o2, MaybeCommit(n1)) == OnWrite(n, from, id, command);
    } else {
      h' := h2;
      assert Join(o1, Quiet(n1)) == OnWrite(n, from, id, command);
    }
  }

  /** Every vote cast so far was cast in a term its voter has reached. */
  ghost predicate TermsCover(h: History, cluster: set<NodeID>, now: Moment) {
    && now.terms.Keys == cluster
    && now.commits == h.commits
    && forall t, p :: (t, p) in h.ballots && p in cluster ==> t <= now.terms[p]
  }

  lemma ArrivalNow(h: History, cluster: set<NodeID>, now: Moment, n: Node, a: Arrival)
    requires HistoryOk(h, cluster) && TermsCover(h, cluster, now)
    requires n.role.Leader? && LeaderOk(h, n) && n.id in cluster && now.terms[n.id] == n.log.term
    requires a.terms == now.terms && a.commits == h.commits
    ensures ArrivalOk(h, cluster, n.log.term, a)
  {
    hide BallotsOk, AcksOk, ArrivalsOk, PeerOk, PendingOk;
    forall c, p | c in a.commits && c.term in h.reigns && p in h.reigns[c.term].quorum
      ensures p in cluster && a.terms[p] >= c.term
    {
      assert Elected(h, cluster, c.term);
    }
  }

  lemma ArrivedCurrent(h: History, t: Term, a: Arrival, id: NodeID)
    requires t in h.reigns && TermCurrent(h, id, t) && (id in a.terms ==> a.terms[id] <= t)
    ensures TermCurrent(AddArrival(h, t, a), id, t)
  {
    var h' := AddArrival(h, t, a);
    forall u, i | u in h'.reigns && 0 <= i < |h'.reigns[u].arrivals| && id in h'.reigns[u].arrivals[i].terms
      ensures h'.reigns[u].arrivals[i].terms[id] <= t
    {
      if u == t && i == |h.reigns[t].arrivals| {
        assert h'.reigns[u].arrivals[i] == a;
      } else {
        assert h'.reigns[u].arrivals[i] == h.reigns[u].arrivals[i];
      }
    }
  }

  lemma ArrivedNow(h: History, t: Term, a: Arrival, n: NodeID, now: Moment)
    requires t in h.reigns && ArrivedAt(a, t, n, now)
    ensures ArrivalsNow(h, AddArrival(h, t, a), n, now)
  {
    var h' := AddArrival(h, t, a);
    forall u, i | u in h'.reigns && 0 <= i < |h'.reigns[u].arrivals|
      ensures (u in h.reigns && i < |h.reigns[u].arrivals|) || ArrivedAt(h'.reigns[u].arrivals[i], u, n, now)
    {
      if u == t && i == |h.reigns[t].arrivals| {
        assert h'.reigns[u].arrivals[i] == a;
      }
    }
  }

  lemma ArrivedLeader(h: History, h': History, n: Node, from: NodeID, id: RequestID, command: Command, a: Arrival)
    requires Grows(h, h') && n.role.Leader? && LeaderOk(h, n) && h' == AddArrival(h, n.log.term, a)
    requires a.from == from && a.id == id && a.command == command && (n.log.term, from) in h.acks
    ensures LeaderOk(h', AcceptRead(n, from, id, command).node)
  {
    var t := n.log.term;
    var n' := AcceptRead(n, from, id, command).node;
    forall p | p in n'.role.progress ensures PeerOk(h', t, p, n'.role.progress[p]) {
      assert PeerOk(h, t, p, n.role.progress[p]);
      ConfirmedGrows(h, h', t, p, n.role.progress[p].readSeq);
    }
    forall i | 0 <= i < |n'.role.queue| ensures PendingOk(h', t, n'.role.queue[i]) {
      if i < |n.role.queue| {
        assert PendingOk(h, t, n.role.queue[i]);
        assert n'.role.queue[i] == n.role.queue[i];
      }
    }
  }

  lemma ArrivedDurable(h: History, h': History, cluster: set<NodeID>, n: Node, n': Node)
    requires Grows(h, h') && DurableOk(h, cluster, n) && n' == n.(role := n'.role)
    requires h'.ballots == h.ballots && h'.acks == h.acks && TermCurrent(h', n.id, n.log.term)
    ensures DurableOk(h', cluster, n')
  {
    hide TermCurrent;
    LogGrows(h, h', n.log.entries);
    AcksRetainedGrow(h, h', n.log.entries, n.id, n.log.term + 1, n.log.term + 1);
    CommitsKeptGrow(h, h', n.log, n.applied);
  }

  lemma AcceptMail(h: History, cluster: set<NodeID>, o: Out)
    requires NodeOk(h, cluster, o.node) && o.node.role.Leader?
    requires o.sent == Broadcast(o.node, Read(o.node.role.readSeq))
    ensures forall e :: e in o.sent ==> MailOk(h, cluster, e)
  {
    hide PeerOk, PendingOk, AcksKept, CommitsKept, TermCurrent, EntriesOk, VoteMatches;
  }

  lemma ArrivalHistory(cluster: set<NodeID>, now: Moment, h: History, n: Node, a: Arrival)
    requires HistoryOk(h, cluster) && NodeOk(h, cluster, n) && n.role.Leader?
    requires TermsCover(h, cluster, now) && n.id in cluster && now.terms[n.id] == n.log.term
    requires a.terms == now.terms && a.commits == h.commits && ArrivedAt(a, n.log.term, n.id, now)
    ensures n.log.term in h.reigns
    ensures var h' := AddArrival(h, n.log.term, a);
      && HistoryOk(h', cluster) && Grows(h, h') && ActedOnly(h, h', n.id)
      && ArrivalsNow(h, h', n.id, now) && TermCurrent(h', n.id, n.log.term)
  {
    hide ReignsOk, BallotsOk, AcksOk, CommitsOk, ArrivalsOk, Grows, ActedOnly, PeerOk, PendingOk, ArrivalsNow, AcksKept,
      CommitsKept, EntriesOk, VoteMatches, TermCurrent, ArrivalOk;
    ArrivalNow(h, cluster, now, n, a);
    AddArrivalOk(h, cluster, n.log.term, a);
    ArrivedCurrent(h, n.log.term, a, n.id);
    ArrivedNow(h, n.log.term, a, n.id, now);
  }

  lemma AcceptReadGood(cluster: set<NodeID>, now: Moment, h: History, n: Node, from: NodeID, id: RequestID,
    command: Command)
    returns (h': History)
    requires HistoryOk(h, cluster) && NodeOk(h, cluster, n) && n.role.Leader? && (n.log.term, from) in h.acks
    requires TermsCover(h, cluster, now) && n.id in cluster && now.terms[n.id] == n.log.term && now.leading
    requires now.delivered == Some(Envelope(from, n.log.term, n.id, ClientRequest(id, ReadRequest(command))))
    ensures Good(cluster, now, h, h', n.id, AcceptRead(n, from, id, command))
    ensures h'.commits == h.commits
  {
    hide HistoryOk, DurableOk, LeaderOk, Grows, ActedOnly, ArrivalsNow, MailOk, TermCurrent;
    var t := n.log.term;
    var a := Arrival(now.step, from, id, command, now.terms, h.commits);
    var o := AcceptRead(n, from, id, command);
    ArrivalHistory(cluster, now, h, n, a);
    h' := AddArrival(h, t, a);
    ArrivedLeader(h, h', n, from, id, command, a);
    ArrivedDurable(h, h', cluster, n, o.node);
    AcceptMail(h', cluster, o);
  }

  lemma OnReadGood(cluster: set<NodeID>, now: Moment, h: History, n: Node, from: NodeID, id: RequestID,
    command: Command)
    returns (h': History)
    requires HistoryOk(h, cluster) && NodeOk(h, cluster, n) && n.role.Leader? && (n.log.term, from) in h.acks
    requires TermsCover(h, cluster, now) && n.id in cluster && now.terms[n.id] == n.log.term && now.leading
    requires now.delivered == Some(Envelope(from, n.log.term, n.id, ClientRequest(id, ReadRequest(command))))
    ensures Good(cluster, now, h, h', n.id, OnRead(n, from, id, command))
  {
    hide HistoryOk, NodeOk, MailOk, Grows, ActedOnly, ArrivalsNow, MaybeRead;
    var o1 := AcceptRead(n, from, id, command);
    h' := AcceptReadGood(cluster, now, h, n, from, id, command);
    if ClusterSize(n) == 1 {
      MaybeReadGood(cluster, now, h', o1.node);
      GoodJoin(cluster, now, h, h', h', n.id, o1, MaybeRead(o1.node));
    }
  }

  /** What a leader learns from a message of its term, given that it is well-formed. */
  lemma LeaderMail(h: History, cluster: set<NodeID>, n: Node, e: Envelope)
    requires HistoryOk(h, cluster) && NodeOk(h, cluster, n) && n.role.Leader?
    requires MailOk(h, cluster, e) && e.to == n.id && e.term == n.log.term
    requires e.from != e.to || e.message.ClientRequest?
    ensures e.from != n.id ==> e.from in n.peers
    ensures !e.message.Heartbeat? && !e.message.Append? && !e.message.Read? && !e.message.ClientResponse?
    ensures e.message.ClientRequest? ==> (n.log.term, e.from) in h.acks
    ensures e.message.Campaign? ==> e.from != n.id
    ensures e.message.HeartbeatResponse? || e.message.AppendResponse? || e.message.ReadResponse? ==> e.from != n.id
    ensures e.message.HeartbeatResponse? || e.message.AppendResponse? ==> e.message.matchIndex <= |n.log.entries|
    ensures e.message.AppendResponse? ==> e.message.rejectIndex <= |n.log.entries|
  {
    hide ReignsOk, BallotsOk, ArrivalsOk, CommitsOk, PeerOk, PendingOk, AcksKept, CommitsKept, TermCurrent, EntriesOk,
      VoteMatches;
  }

  lemma ClientRequestGood(cluster: set<NodeID>, now: Moment, h: History, n: Node, e: Envelope) returns (h': History)
    requires HistoryOk(h, cluster) && NodeOk(h, cluster, n) && n.role.Leader?
    requires e.to == n.id && e.term == n.log.term && e.message.ClientRequest? && (n.log.term, e.from) in h.acks
    requires TermsCover(h, cluster, now) && n.id in cluster && now.terms[n.id] == n.log.term && now.delivered == Some(e)
    requires now.leading
    ensures Good(cluster, now, h, h', n.id, StepLeader(n, e))
  {
    hide HistoryOk, NodeOk, Good, TermsCover, OnWrite, OnRead, OnHeartbeatResponse, OnAppendResponse, ConfirmRead;
    h' := h;
    var id := e.message.id;
    match e.message.request {
      case WriteRequest(command) => h' := OnWriteGood(cluster, now, h, n, e.from, id, command);
      case ReadRequest(command) => h' := OnReadGood(cluster, now, h, n, e.from, id, command);
      case StatusRequest =>
        ReplyGood(cluster, now, h, n, e.from, ClientResponse(id,
          StatusAnswer(MatchTable(n), n.log.commitIndex, |n.applied|)));
    }
  }

  lemma StepLeaderGood(cluster: set<NodeID>, now: Moment, h: History, n: Node, e: Envelope) returns (h': History)
    requires HistoryOk(h, cluster) && NodeOk(h, cluster, n) && n.role.Leader?
    requires MailOk(h, cluster, e) && e.to == n.id && e.term == n.log.term
    requires e.from != e.to || e.message.ClientRequest?
    requires e.message.ClientRequest? ==>
      && TermsCover(h, cluster, now) && n.id in cluster && now.terms[n.id] == n.log.term && now.delivered == Some(e)
      && now.leading
    ensures Good(cluster, now, h, h', n.id, StepLeader(n, e))
  {
    hide HistoryOk, NodeOk, Good, TermsCover, OnHeartbeatResponse, OnAppendResponse, ConfirmRead, OnWrite, OnRead,
      Confirmed, Acked, AnswerOk, HeartbeatOk, AppendOk;
    LeaderMail(h, cluster, n, e);
    h' := h;
    match e.message {
      case HeartbeatResponse(matchIndex, readSeq) =>
        h' := OnHeartbeatResponseGood(cluster, now, h, n, e.from, matchIndex, readSeq);
      case AppendResponse(matchIndex, rejectIndex) =>
        h' := OnAppendResponseGood(cluster, now, h, n, e.from, matchIndex, rejectIndex);
      case ReadResponse(readSeq) =>
        ConfirmReadGood(cluster, now, h, n, e.from, readSeq);
      case ClientRequest(_, _) => h' := ClientRequestGood(cluster, now, h, n, e);
      case Campaign(_, _) => ReplyGood(cluster, now, h, n, e.from, CampaignResponse(false));
      case CampaignResponse(_) => QuietGood(cluster, now, h, n);
      case _ =>
    }
  }

  // ---------------------------------------------------------------- node

  lemma StepRoleGood(cluster: set<NodeID>, now: Moment, h: History, n: Node, e: Envelope) returns (h': History)
    requires HistoryOk(h, cluster) && NodeOk(h, cluster, n)
    requires MailOk(h, cluster, e) && e.to == n.id && e.term == n.log.term
    requires e.from != e.to || e.message.ClientRequest?
    requires n.role.Leader? && e.message.ClientRequest? ==>
      && TermsCover(h, cluster, now) && n.id in cluster && now.terms[n.id] == n.log.term && now.delivered == Some(e)
      && now.leading
    ensures Good(cluster, now, h, h', n.id, StepRole(n, e))
  {
    hide HistoryOk, NodeOk, MailOk, Good, TermsCover, StepFollower, StepCandidate, StepLeader;
    match n.role {
      case Follower(_, _) => h' := StepFollowerGood(cluster, now, h, n, e);
      case Candidate(_) => h' := StepCandidateGood(cluster, now, h, n, e);
      case Leader(_, _, _, _) => h' := StepLeaderGood(cluster, now, h, n, e);
      case Halted(_) => h' := h; QuietGood(cluster, now, h, n);
    }
  }

  /** Any message of the network can be delivered to its recipient. */
  lemma StepGood(cluster: set<NodeID>, now: Moment, h: History, n: Node, e: Envelope) returns (h': History)
    requires HistoryOk(h, cluster) && NodeOk(h, cluster, n)
    requires MailOk(h, cluster, e) && e.to == n.id && (e.from != e.to || e.message.ClientRequest?)
    requires TermsCover(h, cluster, now) && n.id in cluster && now.terms[n.id] == n.log.term && now.delivered == Some(e)
    requires now.leading == n.role.Leader?
    ensures Good(cluster, now, h, h', n.id, Step(n, e))
  {
    assert e.from in n.peers || e.from == n.id;
    hide HistoryOk, NodeOk, MailOk, TermsCover, StepRole, EnterTerm, Grows, ActedOnly, ArrivalsNow;
    if n.role.Halted? || e.term < n.log.term {
      h' := h;
      QuietGood(cluster, now, h, n);
    } else if e.term > n.log.term {
      EnterTermGood(cluster, now, h, n, e.term);
      var o := EnterTerm(n, e.term);
      h' := StepRoleGood(cluster, now, h, o.node, e);
      GoodJoin(cluster, now, h, h, h', n.id, o, StepRole(o.node, e));
    } else {
      h' := StepRoleGood(cluster, now, h, n, e);
    }
  }

  lemma TickGood(cluster: set<NodeID>, now: Moment, h: History, n: Node) returns (h': History)
    requires HistoryOk(h, cluster) && NodeOk(h, cluster, n)
    ensures Good(cluster, now, h, h', n.id, Tick(n))
  {
    hide HistoryOk, DurableOk, Good, BecomeCandidate, HoldElection, SendHeartbeats;
    match n.role {
      case Follower(_, _) => h' := BecomeCandidateGood(cluster, now, h, n);
      case Candidate(_) => h' := HoldElectionGood(cluster, now, h, n);
      case Leader(_, _, _, _) => h' := h; SendHeartbeatsGood(cluster, now, h, n);
      case Halted(_) => h' := h; QuietGood(cluster, now, h, n);
    }
  }

  /** A node restarts on its durable log, possibly with an older commit index and state. */
  lemma StartGood(cluster: set<NodeID>, now: Moment, h: History, n: Node) returns (h': History)
    requires HistoryOk(h, cluster) && DurableOk(h, cluster, n) && n.role == Follower(None, {})
    requires n.peers != {} ==> StaysEngaged(h, n)
    ensures Good(cluster, now, h, h', n.id, Start(n.id, n.peers, n.maxAppend, n.log, n.applied))
  {
    hide HistoryOk, NodeOk, DurableOk, Start, BecomeCandidate, BecomeLeader, Good, MaybeApply;
    ApplyKeeps(h, cluster, n);
    StartMeans(n);
    var n1 := MaybeApply(n);
    if n.peers == {} {
      h' := StartAloneGood(cluster, now, h, n1);
    } else {
      h' := h;
      Leaderless(h, cluster, n1);
      QuietGood(cluster, now, h, n1);
    }
  }

  lemma StartMeans(n: Node)
    requires n.role == Follower(None, {})
    ensures var n1 := MaybeApply(n);
      Start(n.id, n.peers, n.maxAppend, n.log, n.applied)
      == if n.peers == {} then Join(BecomeCandidate(n1), BecomeLeader(BecomeCandidate(n1).node)) else Quiet(n1)
  {
    hide BecomeCandidate, BecomeLeader, MaybeApply;
    assert n == Node(n.id, n.peers, n.maxAppend, n.log, n.applied, Follower(None, {}));
    assert MaybeApply(n).peers == n.peers by { ApplySame(n); }
  }

  lemma ApplySame(n: Node)
    ensures MaybeApply(n).peers == n.peers && MaybeApply(n).log == n.log
  {}

  lemma Leaderless(h: History, cluster: set<NodeID>, n: Node)
    requires DurableOk(h, cluster, n) && StaysEngaged(h, n) && n.role == Follower(None, {})
    ensures NodeOk(h, cluster, n)
  {
    hide DurableOk;
  }

  /** A node without peers elects itself at once. */
  lemma StartAloneGood(cluster: set<NodeID>, now: Moment, h: History, n: Node) returns (h': History)
    requires HistoryOk(h, cluster) && DurableOk(h, cluster, n) && n.role.Follower? && ClusterSize(n) == 1
    ensures var o := BecomeCandidate(n); Good(cluster, now, h, h', n.id, Join(o, BecomeLeader(o.node)))
  {
    hide HistoryOk, NodeOk, BecomeCandidate, BecomeLeader, Grows, ActedOnly, ArrivalsNow, MailOk;
    var o := BecomeCandidate(n);
    var h1 := BecomeCandidateGood(cluster, now, h, n);
    h' := BecomeLeaderGood(cluster, now, h1, o.node);
    GoodJoin(cluster, now, h, h1, h', n.id, o, BecomeLeader(o.node));
  }
}
