/** The invariant of a node and of a message, relative to a history. */
module RaftInvariant {
  import opened Common
  import opened RaftLog
  import opened RaftNode
  import opened RaftHistory
  import opened RaftGrowth

  // ---------------------------------------------------------------- nodes

  ghost predicate StaticOk(cluster: set<NodeID>, id: NodeID, peers: set<NodeID>, maxAppend: nat) {
    id in cluster && peers == cluster - {id} && maxAppend >= 1
  }

  ghost predicate EntriesOk(h: History, entries: seq<Entry>, term: Term) {
    && LogOk(h, entries)
    && forall i :: 0 <= i < |entries| ==> entries[i].term <= term
  }

  /** One durable vote per term. */
  ghost predicate VoteMatches(h: History, id: NodeID, term: Term, vote: Option<NodeID>) {
    && (forall t :: (t, id) in h.ballots ==> t <= term)
    && ((term, id) in h.ballots <==> vote.Some?)
    && (vote.Some? ==> h.ballots[(term, id)].candidate == vote.value)
  }

  ghost predicate AcksKept(h: History, id: NodeID, entries: seq<Entry>, term: Term) {
    && (forall t :: (t, id) in h.acks ==> t <= term)
    && AcksRetained(h, entries, id, term + 1, term + 1)
  }

  ghost predicate CommitsKept(h: History, log: Log, applied: seq<Entry>) {
    && log.commitIndex <= |log.entries|
    && log.commitTerm == TermAt(log.entries, log.commitIndex)
    && Committed(h, log.entries[..log.commitIndex], log.term)
    && applied <= log.entries
    && Committed(h, applied, log.term)
  }

  ghost predicate TermCurrent(h: History, id: NodeID, term: Term) {
    && (forall t :: t in h.reigns && h.reigns[t].leader == id ==> t <= term)
    && (forall t, i :: t in h.reigns && 0 <= i < |h.reigns[t].arrivals| && id in h.reigns[t].arrivals[i].terms ==>
          h.reigns[t].arrivals[i].terms[id] <= term)
  }

  /** Node `p` confirmed the reads of term `t` up to `readSeq`, while still in that term. */
  ghost predicate Confirmed(h: History, t: Term, p: NodeID, readSeq: nat) {
    && t in h.reigns
    && readSeq <= |h.reigns[t].arrivals|
    && forall i :: 0 <= i < readSeq ==>
         p in h.reigns[t].arrivals[i].terms && h.reigns[t].arrivals[i].terms[p] <= t
  }

  ghost predicate Acked(h: History, t: Term, p: NodeID, index: Index) {
    index > 0 ==> (t, p) in h.acks && h.acks[(t, p)] >= index
  }

  ghost predicate PeerOk(h: History, t: Term, p: NodeID, pr: Progress) {
    && t in h.reigns
    && ProgressValid(pr, |h.reigns[t].log|)
    && Acked(h, t, p, pr.matchIndex)
    && Confirmed(h, t, p, pr.readSeq)
  }

  ghost predicate PendingOk(h: History, t: Term, r: PendingRead) {
    && t in h.reigns
    && (t, r.from) in h.acks
    && 1 <= r.readSeq <= |h.reigns[t].arrivals|
    && var a := h.reigns[t].arrivals[r.readSeq - 1];
       a.from == r.from && a.id == r.id && a.command == r.command
  }

  /** A pending write stands at its index of the log. */
  ghost predicate WriteOk(h: History, t: Term, entries: seq<Entry>, i: Index, w: PendingWrite) {
    && (t, w.from) in h.acks
    && 1 <= i <= |entries|
    && exists c: Command :: WroteAt(h, t, i, w.from, w.id, c) && entries[i - 1] == Entry(i, t, Some(c))
  }

  ghost predicate WroteAt(h: History, t: Term, i: Index, from: NodeID, id: RequestID, c: Command) {
    exists step: nat :: Proposal(step, t, i, from, id, c) in h.proposals
  }

  ghost predicate LeaderOk(h: History, n: Node)
    requires n.role.Leader?
  {
    var t := n.log.term;
    && t in h.reigns
    && h.reigns[t].leader == n.id
    && h.reigns[t].log == n.log.entries
    && |h.reigns[t].arrivals| == n.role.readSeq
    && (t, n.id) in h.acks && h.acks[(t, n.id)] == |n.log.entries|
    && n.role.progress.Keys == n.peers
    && (forall p :: p in n.role.progress ==> PeerOk(h, t, p, n.role.progress[p]))
    && (forall i :: 0 <= i < |n.role.queue| ==> PendingOk(h, t, n.role.queue[i]))
    && (forall i :: i in n.role.writes ==> WriteOk(h, t, n.log.entries, i, n.role.writes[i]))
    && (forall c :: c in h.commits && c.term == t ==> c.index <= n.log.commitIndex)
  }

  ghost predicate CandidateOk(h: History, cluster: set<NodeID>, n: Node)
    requires n.role.Candidate?
  {
    var t := n.log.term;
    && t > 0
    && n.log.vote == Some(n.id)
    && (t in h.reigns ==> h.reigns[t].leader != n.id)
    && (t, n.id) in h.ballots && h.ballots[(t, n.id)].log == n.log.entries
    && n.role.votes <= cluster
    && (forall p :: p in n.role.votes ==> (t, p) in h.ballots && h.ballots[(t, p)].candidate == n.id)
    && (forall i :: 0 <= i < |n.log.entries| ==> n.log.entries[i].term < t)
  }

  /** The node leads its term, or knows who does. */
  predicate Engaged(n: Node) {
    n.role.Leader? || (n.role.Follower? && n.role.leader.Some?)
  }

  /** A node that led or followed a leader in its term still does, unless it restarted in that term. */
  ghost predicate StaysEngaged(h: History, n: Node) {
    (n.log.term, n.id) in h.acks ==> Engaged(n) || (n.log.term, n.id) in h.restarts
  }

  /** The panics that a run can reach: a restarted node meets messages meant for its past self. */
  predicate ReachablePanic(p: Panic) {
    p == UnexpectedMessage || p == ResponseFromNonLeader || p == ForeignClientRequest
  }

  ghost predicate FollowerOk(h: History, n: Node)
    requires n.role.Follower?
  {
    n.role.leader.Some? ==>
      && n.log.term in h.reigns && h.reigns[n.log.term].leader == n.role.leader.value
      && n.role.leader.value != n.id && (n.log.term, n.id) in h.acks
  }

  ghost predicate RoleOk(h: History, cluster: set<NodeID>, n: Node) {
    && StaysEngaged(h, n)
    && match n.role
       case Follower(_, _) => FollowerOk(h, n)
       case Candidate(_) => CandidateOk(h, cluster, n)
       case Leader(_, _, _, _) => LeaderOk(h, n)
       case Halted(p) => ReachablePanic(p) && (n.log.term, n.id) in h.restarts
  }

  /** What holds of a node whatever its role. */
  ghost predicate DurableOk(h: History, cluster: set<NodeID>, n: Node) {
    && StaticOk(cluster, n.id, n.peers, n.maxAppend)
    && EntriesOk(h, n.log.entries, n.log.term)
    && VoteMatches(h, n.id, n.log.term, n.log.vote)
    && AcksKept(h, n.id, n.log.entries, n.log.term)
    && CommitsKept(h, n.log, n.applied)
    && TermCurrent(h, n.id, n.log.term)
  }

  ghost predicate NodeOk(h: History, cluster: set<NodeID>, n: Node) {
    DurableOk(h, cluster, n) && RoleOk(h, cluster, n)
  }

  // ---------------------------------------------------------------- messages

  ghost predicate FromLeader(h: History, e: Envelope) {
    e.term in h.reigns && h.reigns[e.term].leader == e.from && e.from != e.to
  }

  ghost predicate ToLeader(h: History, e: Envelope) {
    e.term in h.reigns && h.reigns[e.term].leader == e.to && e.from != e.to
  }

  /** A read was answered on a state holding all that was committed when it arrived. */
  ghost predicate AnswerOk(h: History, t: Term, to: NodeID, id: nat, command: Command, state: seq<Entry>) {
    && t in h.reigns
    && Committed(h, state, t)
    && exists i :: 0 <= i < |h.reigns[t].arrivals| && AnswersArrival(h, h.reigns[t].arrivals[i], to, id, command, state)
  }

  /** A write was answered on a committed state that ends with it. */
  ghost predicate WrittenOk(h: History, t: Term, to: NodeID, id: nat, state: seq<Entry>) {
    && Committed(h, state, t)
    && state != []
    && exists c: Command ::
         WroteAt(h, t, |state|, to, id, c) && state[|state| - 1] == Entry(|state|, t, Some(c))
  }

  ghost predicate AnswersArrival(h: History, a: Arrival, to: NodeID, id: nat, command: Command, state: seq<Entry>) {
    && a.from == to && a.id == id && a.command == command
    && forall c :: c in a.commits ==> StateHolds(h, c, state)
  }

  ghost predicate StateHolds(h: History, c: CommitEvent, state: seq<Entry>) {
    && c.term in h.reigns
    && c.index <= |h.reigns[c.term].log|
    && h.reigns[c.term].log[..c.index] <= state
  }

  ghost predicate HeartbeatOk(h: History, t: Term, lastIndex: Index, commitIndex: Index, readSeq: nat)
    requires t in h.reigns
  {
    && Has(h.reigns[t].log, lastIndex, t)
    && commitIndex <= lastIndex
    && Committed(h, h.reigns[t].log[..commitIndex], t)
    && readSeq <= |h.reigns[t].arrivals|
  }

  /** An append carries a piece of the leader's log; never an empty one at its start. */
  predicate AppendFits(log: seq<Entry>, baseIndex: Index, baseTerm: Term, entries: seq<Entry>) {
    && baseIndex + |entries| <= |log|
    && entries == log[baseIndex..baseIndex + |entries|]
    && baseTerm == TermAt(log, baseIndex)
    && (baseIndex == 0 ==> entries != [])
  }

  ghost predicate AppendOk(h: History, t: Term, baseIndex: Index, baseTerm: Term, entries: seq<Entry>)
    requires t in h.reigns
  {
    AppendFits(h.reigns[t].log, baseIndex, baseTerm, entries)
  }

  ghost predicate MessageOk(h: History, e: Envelope) {
    match e.message
    case Campaign(lastIndex, lastTerm) =>
      && e.from != e.to
      && e.term > 0
      && (e.term, e.from) in h.ballots
      && h.ballots[(e.term, e.from)].candidate == e.from
      && lastIndex == |h.ballots[(e.term, e.from)].log|
      && lastTerm == LastTerm(h.ballots[(e.term, e.from)].log)
    case CampaignResponse(vote) =>
      && e.from != e.to
      && (vote ==> (e.term, e.from) in h.ballots && h.ballots[(e.term, e.from)].candidate == e.to)
    case Heartbeat(lastIndex, commitIndex, readSeq) =>
      FromLeader(h, e) && HeartbeatOk(h, e.term, lastIndex, commitIndex, readSeq)
    case HeartbeatResponse(matchIndex, readSeq) =>
      ToLeader(h, e) && Acked(h, e.term, e.from, matchIndex) && Confirmed(h, e.term, e.from, readSeq)
    case Append(baseIndex, baseTerm, entries) =>
      FromLeader(h, e) && AppendOk(h, e.term, baseIndex, baseTerm, entries)
    case AppendResponse(matchIndex, rejectIndex) =>
      && ToLeader(h, e)
      && (matchIndex == 0 <==> rejectIndex > 0)
      && Acked(h, e.term, e.from, matchIndex)
      && rejectIndex <= |h.reigns[e.term].log|
    case Read(readSeq) => FromLeader(h, e) && readSeq <= |h.reigns[e.term].arrivals|
    case ReadResponse(readSeq) => ToLeader(h, e) && Confirmed(h, e.term, e.from, readSeq)
    case ClientRequest(_, _) => e.from != e.to ==> ToLeader(h, e) && (e.term, e.from) in h.acks
    case ClientResponse(id, response) =>
      && (e.from != e.to ==> FromLeader(h, e) && (e.term, e.to) in h.acks)
      && (response.ReadAnswer? ==> AnswerOk(h, e.term, e.to, id, response.command, response.state))
      && (response.WriteAnswer? ==> WrittenOk(h, e.term, e.to, id, response.state))
  }

  ghost predicate MailOk(h: History, cluster: set<NodeID>, e: Envelope) {
    e.from in cluster && MessageOk(h, e)
  }

  // ---------------------------------------------------------------- growth

  lemma ConfirmedGrows(h: History, h': History, t: Term, p: NodeID, readSeq: nat)
    requires Grows(h, h') && Confirmed(h, t, p, readSeq)
    ensures Confirmed(h', t, p, readSeq)
  {
    assert ReignGrows(h.reigns[t], h'.reigns[t]);
  }

  lemma StateHoldsGrows(h: History, h': History, c: CommitEvent, state: seq<Entry>)
    requires Grows(h, h') && StateHolds(h, c, state)
    ensures StateHolds(h', c, state)
  {
    assert ReignGrows(h.reigns[c.term], h'.reigns[c.term]);
    assert h.reigns[c.term].log[..c.index] == h'.reigns[c.term].log[..c.index];
  }

  lemma AnswerGrows(h: History, h': History, t: Term, to: NodeID, id: nat, command: Command, state: seq<Entry>)
    requires Grows(h, h') && AnswerOk(h, t, to, id, command, state)
    ensures AnswerOk(h', t, to, id, command, state)
  {
    assert ReignGrows(h.reigns[t], h'.reigns[t]);
    var i :| 0 <= i < |h.reigns[t].arrivals| && AnswersArrival(h, h.reigns[t].arrivals[i], to, id, command, state);
    var a := h.reigns[t].arrivals[i];
    assert a == h'.reigns[t].arrivals[i];
    forall c | c in a.commits ensures StateHolds(h', c, state) {
      StateHoldsGrows(h, h', c, state);
    }
    assert AnswersArrival(h', a, to, id, command, state);
    CommittedGrows(h, h', state, t, t);
  }

  lemma WroteGrows(h: History, h': History, t: Term, i: Index, from: NodeID, id: RequestID, c: Command)
    requires Grows(h, h') && WroteAt(h, t, i, from, id, c)
    ensures WroteAt(h', t, i, from, id, c)
  {
    var step: nat :| Proposal(step, t, i, from, id, c) in h.proposals;
    assert Proposal(step, t, i, from, id, c) in h'.proposals;
  }

  lemma WriteGrows(h: History, h': History, t: Term, entries: seq<Entry>, entries': seq<Entry>, i: Index,
    w: PendingWrite)
    requires Grows(h, h') && WriteOk(h, t, entries, i, w) && entries <= entries'
    ensures WriteOk(h', t, entries', i, w)
  {
    hide WroteAt;
    var c: Command :| WroteAt(h, t, i, w.from, w.id, c) && entries[i - 1] == Entry(i, t, Some(c));
    WroteGrows(h, h', t, i, w.from, w.id, c);
    assert (t, w.from) in h'.acks && entries'[i - 1] == entries[i - 1];
  }

  lemma WritesGrow(h: History, h': History, t: Term, entries: seq<Entry>, entries': seq<Entry>,
    writes: map<Index, PendingWrite>)
    requires Grows(h, h') && entries <= entries'
    requires forall i :: i in writes ==> WriteOk(h, t, entries, i, writes[i])
    ensures forall i :: i in writes ==> WriteOk(h', t, entries', i, writes[i])
  {
    hide WriteOk, Grows;
    forall i | i in writes ensures WriteOk(h', t, entries', i, writes[i]) {
      WriteGrows(h, h', t, entries, entries', i, writes[i]);
    }
  }

  lemma WrittenGrows(h: History, h': History, t: Term, to: NodeID, id: nat, state: seq<Entry>)
    requires Grows(h, h') && WrittenOk(h, t, to, id, state)
    ensures WrittenOk(h', t, to, id, state)
  {
    hide WroteAt, Committed;
    var c: Command :| WroteAt(h, t, |state|, to, id, c) && state[|state| - 1] == Entry(|state|, t, Some(c));
    WroteGrows(h, h', t, |state|, to, id, c);
    CommittedGrows(h, h', state, t, t);
  }

  lemma HeartbeatGrows(h: History, h': History, t: Term, lastIndex: Index, commitIndex: Index, readSeq: nat)
    requires Grows(h, h') && t in h.reigns && HeartbeatOk(h, t, lastIndex, commitIndex, readSeq)
    ensures t in h'.reigns && HeartbeatOk(h', t, lastIndex, commitIndex, readSeq)
  {
    assert ReignGrows(h.reigns[t], h'.reigns[t]);
    assert h'.reigns[t].log[..commitIndex] == h.reigns[t].log[..commitIndex];
    CommittedGrows(h, h', h.reigns[t].log[..commitIndex], t, t);
  }

  lemma AppendGrows(h: History, h': History, t: Term, baseIndex: Index, baseTerm: Term, entries: seq<Entry>)
    requires Grows(h, h') && t in h.reigns && AppendOk(h, t, baseIndex, baseTerm, entries)
    ensures t in h'.reigns && AppendOk(h', t, baseIndex, baseTerm, entries)
  {
    assert ReignGrows(h.reigns[t], h'.reigns[t]);
  }

  lemma MailGrows(h: History, h': History, cluster: set<NodeID>, e: Envelope)
    requires Grows(h, h') && MailOk(h, cluster, e)
    ensures MailOk(h', cluster, e)
  {
    if e.term in h.reigns { assert ReignGrows(h.reigns[e.term], h'.reigns[e.term]); }
    match e.message {
      case Heartbeat(lastIndex, commitIndex, readSeq) => HeartbeatGrows(h, h', e.term, lastIndex, commitIndex, readSeq);
      case HeartbeatResponse(_, readSeq) => ConfirmedGrows(h, h', e.term, e.from, readSeq);
      case Append(baseIndex, baseTerm, entries) => AppendGrows(h, h', e.term, baseIndex, baseTerm, entries);
      case ReadResponse(readSeq) => ConfirmedGrows(h, h', e.term, e.from, readSeq);
      case ClientResponse(id, response) =>
        if response.ReadAnswer? { AnswerGrows(h, h', e.term, e.to, id, response.command, response.state); }
        if response.WriteAnswer? { WrittenGrows(h, h', e.term, e.to, id, response.state); }
      case _ =>
    }
  }

  /** A step in a run: all terms, what was committed, the message delivered, and whether a leader acts. */
  datatype Moment = Moment(
    step: nat, terms: map<NodeID, Term>, commits: set<CommitEvent>, delivered: Option<Envelope>, leading: bool)

  /** The arrival was recorded at this moment, for the read request delivered to the leader of `t`. */
  ghost predicate ArrivedAt(a: Arrival, t: Term, n: NodeID, now: Moment) {
    && a.step == now.step
    && now.commits <= a.commits
    && now.delivered == Some(Envelope(a.from, t, n, ClientRequest(a.id, ReadRequest(a.command))))
    && now.leading && n in now.terms && now.terms[n] == t
    && forall p :: p in a.terms && p != n ==> p in now.terms && a.terms[p] == now.terms[p]
  }

  /** All proposals are old, or were made now, for the write request delivered to the leader. */
  ghost predicate ProposalsNow(h: History, h': History, n: NodeID, now: Moment) {
    forall p :: p in h'.proposals && p !in h.proposals ==> ProposedAt(p, n, now)
  }

  ghost predicate ProposedAt(p: Proposal, n: NodeID, now: Moment) {
    && p.step == now.step
    && now.delivered == Some(Envelope(p.from, p.term, n, ClientRequest(p.id, WriteRequest(p.command))))
    && now.leading && n in now.terms && now.terms[n] == p.term
  }

  /** All arrivals are old, or were recorded now. */
  ghost predicate ArrivalsNow(h: History, h': History, n: NodeID, now: Moment) {
    forall t, i :: (t in h'.reigns && 0 <= i < |h'.reigns[t].arrivals|) ==>
      (t in h.reigns && i < |h.reigns[t].arrivals|) || ArrivedAt(h'.reigns[t].arrivals[i], t, n, now)
  }

  lemma CommitsKeptGrow(h: History, h': History, log: Log, applied: seq<Entry>)
    requires Grows(h, h') && CommitsKept(h, log, applied)
    ensures CommitsKept(h', log, applied)
  {
    CommittedGrows(h, h', log.entries[..log.commitIndex], log.term, log.term);
    CommittedGrows(h, h', applied, log.term, log.term);
  }

  lemma TermCurrentGrows(h: History, h': History, id: NodeID, term: Term, n: NodeID, now: Moment)
    requires Grows(h, h') && ActedOnly(h, h', n) && ArrivalsNow(h, h', n, now)
    requires id != n && id in now.terms && now.terms[id] == term
    requires TermCurrent(h, id, term)
    ensures TermCurrent(h', id, term)
  {
    forall t, i | t in h'.reigns && 0 <= i < |h'.reigns[t].arrivals| && id in h'.reigns[t].arrivals[i].terms
      ensures h'.reigns[t].arrivals[i].terms[id] <= term
    {
      if t in h.reigns && i < |h.reigns[t].arrivals| {
        assert ReignGrows(h.reigns[t], h'.reigns[t]);
        assert h'.reigns[t].arrivals[i] == h.reigns[t].arrivals[i];
      }
    }
  }

  lemma DurableGrows(h: History, h': History, cluster: set<NodeID>, p: Node, n: NodeID, now: Moment)
    requires Grows(h, h') && ActedOnly(h, h', n) && ArrivalsNow(h, h', n, now)
    requires p.id != n && p.id in now.terms && now.terms[p.id] == p.log.term
    requires DurableOk(h, cluster, p)
    ensures DurableOk(h', cluster, p)
  {
    LogGrows(h, h', p.log.entries);
    AcksRetainedGrow(h, h', p.log.entries, p.id, p.log.term + 1, p.log.term + 1);
    CommitsKeptGrow(h, h', p.log, p.applied);
    TermCurrentGrows(h, h', p.id, p.log.term, n, now);
  }

  lemma LeaderGrows(h: History, h': History, p: Node, n: NodeID)
    requires Grows(h, h') && ActedOnly(h, h', n) && p.id != n
    requires p.role.Leader? && LeaderOk(h, p)
    ensures LeaderOk(h', p)
  {
    var t := p.log.term;
    assert ReignGrows(h.reigns[t], h'.reigns[t]);
    assert h'.reigns[t] == h.reigns[t];
    forall q | q in p.role.progress ensures PeerOk(h', t, q, p.role.progress[q]) {
      assert PeerOk(h, t, q, p.role.progress[q]);
      ConfirmedGrows(h, h', t, q, p.role.progress[q].readSeq);
    }
    forall i | 0 <= i < |p.role.queue| ensures PendingOk(h', t, p.role.queue[i]) {
      assert PendingOk(h, t, p.role.queue[i]);
    }
    WritesGrow(h, h', t, p.log.entries, p.log.entries, p.role.writes);
  }

  lemma RoleGrows(h: History, h': History, cluster: set<NodeID>, p: Node, n: NodeID)
    requires Grows(h, h') && ActedOnly(h, h', n) && p.id != n
    requires RoleOk(h, cluster, p)
    ensures RoleOk(h', cluster, p)
  {
    match p.role {
      case Follower(leader, _) =>
        if leader.Some? { assert ReignGrows(h.reigns[p.log.term], h'.reigns[p.log.term]); }
      case Candidate(_) =>
        if p.log.term in h'.reigns && h'.reigns[p.log.term].leader != n { assert p.log.term in h.reigns; }
      case Leader(_, _, _, _) => LeaderGrows(h, h', p, n);
      case Halted(_) =>
    }
  }

  // ---------------------------------------------------------------- steps

  /** What is newly committed was committed by the node, as the leader it still is. */
  ghost predicate CommitsNow(h: History, h': History, n: Node) {
    forall c :: c in h'.commits && c !in h.commits ==> n.role.Leader? && n.log.term == c.term
  }

  /** Node `n` took (part of) a step, leaving history, node and messages in order. */
  ghost predicate Good(cluster: set<NodeID>, now: Moment, h: History, h': History, n: NodeID, o: Out) {
    && HistoryOk(h', cluster)
    && Grows(h, h')
    && ActedOnly(h, h', n)
    && ArrivalsNow(h, h', n, now)
    && ProposalsNow(h, h', n, now)
    && CommitsNow(h, h', o.node)
    && h'.restarts == h.restarts
    && o.node.id == n
    && NodeOk(h', cluster, o.node)
    && forall e :: e in o.sent ==> MailOk(h', cluster, e)
  }

  lemma ActedTransitive(a: History, b: History, c: History, n: NodeID)
    requires Grows(a, b) && Grows(b, c) && ActedOnly(a, b, n) && ActedOnly(b, c, n)
    ensures ActedOnly(a, c, n)
  {
    forall e | e in c.commits && e !in a.commits ensures e.term in c.reigns && c.reigns[e.term].leader == n {
      if e in b.commits { assert ReignGrows(b.reigns[e.term], c.reigns[e.term]); }
    }
  }

  lemma ArrivalsNowTransitive(a: History, b: History, c: History, n: NodeID, now: Moment)
    requires Grows(a, b) && Grows(b, c) && ArrivalsNow(a, b, n, now) && ArrivalsNow(b, c, n, now)
    ensures ArrivalsNow(a, c, n, now)
  {
    forall t, i | t in c.reigns && 0 <= i < |c.reigns[t].arrivals|
      ensures (t in a.reigns && i < |a.reigns[t].arrivals|) || ArrivedAt(c.reigns[t].arrivals[i], t, n, now)
    {
      if t in b.reigns && i < |b.reigns[t].arrivals| {
        assert ReignGrows(b.reigns[t], c.reigns[t]);
        assert c.reigns[t].arrivals[i] == b.reigns[t].arrivals[i];
      }
    }
  }

  /** Good part-steps compose. */
  lemma GoodJoin(cluster: set<NodeID>, now: Moment, a: History, b: History, c: History, n: NodeID, o: Out, o': Out)
    requires Good(cluster, now, a, b, n, o) && Good(cluster, now, b, c, n, o')
    requires b.commits == a.commits || (o'.node.role.Leader? && o'.node.log.term == o.node.log.term)
    ensures Good(cluster, now, a, c, n, Join(o, o'))
  {
    GrowsTransitive(a, b, c);
    ActedTransitive(a, b, c, n);
    ArrivalsNowTransitive(a, b, c, n, now);
    forall e | e in o.sent ensures MailOk(c, cluster, e) {
      MailGrows(b, c, cluster, e);
    }
  }

  /** A part-step that changes no history. */
  lemma GoodStill(cluster: set<NodeID>, now: Moment, h: History, o: Out)
    requires HistoryOk(h, cluster) && NodeOk(h, cluster, o.node)
    requires forall e :: e in o.sent ==> MailOk(h, cluster, e)
    ensures Good(cluster, now, h, h, o.node.id, o)
  {
    GrowsReflexive(h);
  }
}
