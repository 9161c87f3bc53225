/** Who is elected, over every run: which votes are granted, and which nodes can become leader. */
module RaftElection {
  import opened Common
  import opened RaftLog
  import opened RaftNode
  import opened RaftHistory
  import opened RaftInvariant
  import opened RaftCluster
  import opened RaftRuns
  import RaftDecisions
  import RaftStep

  // ---------------------------------------------------------------- votes

  /** The last term and index of a log are at most these: section 5.4.1 of the Raft paper. */
  predicate AtMostAt(log: seq<Entry>, lastIndex: Index, lastTerm: Term) {
    LastTerm(log) < lastTerm || (LastTerm(log) == lastTerm && |log| <= lastIndex)
  }

  /** The node may still vote for the sender: the term is new to it, or it follows in it and voted for nobody else. */
  predicate MayVote(n: Node, from: NodeID, term: Term) {
    || n.log.term < term
    || (n.log.term == term && n.role.Follower? && n.log.vote in {None, Some(from)})
  }

  /**
   * A campaign of the voter's term or a later one is granted, and the vote kept, exactly if the voter may still vote
   * for its sender and its log's last term and index are at most the candidate's.
   */
  lemma VotesIff(run: Run, i: nat, e: Envelope)
    requires run.Valid() && i < |run.actions| && run.actions[i] == Deliver(e) && e.message.Campaign?
    requires run.At(i, e.to) && !run.Node(i, e.to).role.Halted? && run.Node(i, e.to).log.term <= e.term
    ensures run.At(i + 1, e.to)
    ensures var n, n' := run.Node(i, e.to), run.Node(i + 1, e.to);
      var vote := Envelope(e.to, e.term, e.from, CampaignResponse(true));
      if MayVote(n, e.from, e.term) && AtMostAt(n.log.entries, e.message.lastIndex, e.message.lastTerm) then
        && vote in run.states[i + 1].net
        && n'.log == n.log.(term := e.term, vote := Some(e.from))
      else
        && (vote in run.states[i + 1].net ==> vote in run.states[i].net)
        && Envelope(e.to, e.term, e.from, CampaignResponse(false)) in run.states[i + 1].net
        && n'.log == if n.log.term < e.term then n.log.(term := e.term, vote := None) else n.log
  {
    hide Init, NodeOk, MailOk, Explains;
    var h := Explain(run, i);
    ExplainedParts(run, i, h);
    assert run.Moves(i);
    hide Step;
    VoteStep(h, run.states[0].nodes.Keys, run.Node(i, e.to), e);
  }

  lemma VoteStep(h: History, ids: set<NodeID>, n: Node, e: Envelope)
    requires NodeOk(h, ids, n) && MailOk(h, ids, e) && e.to == n.id && e.from != e.to && e.message.Campaign?
    requires !n.role.Halted? && n.log.term <= e.term
    ensures var o := Step(n, e);
      var vote := Envelope(n.id, e.term, e.from, CampaignResponse(true));
      if MayVote(n, e.from, e.term) && AtMostAt(n.log.entries, e.message.lastIndex, e.message.lastTerm) then
        && vote in o.sent
        && o.node.log == n.log.(term := e.term, vote := Some(e.from))
        && o.node.role == (if n.log.term < e.term then Follower(None, {}) else n.role)
        && o.node == n.(log := o.node.log, role := o.node.role)
      else
        && vote !in o.sent
        && Envelope(n.id, e.term, e.from, CampaignResponse(false)) in o.sent
        && o.node.log == if n.log.term < e.term then n.log.(term := e.term, vote := None) else n.log
  {
    assert e.term > 0 && e.from in n.peers by { CampaignMail(h, ids, n, e); }
    hide NodeOk, MailOk;
    if n.log.term < e.term {
      AbortsAreNoVotes(n, Envelope(n.id, e.term, e.from, CampaignResponse(true)));
    }
  }

  lemma CampaignMail(h: History, ids: set<NodeID>, n: Node, e: Envelope)
    requires NodeOk(h, ids, n) && MailOk(h, ids, e) && e.to == n.id && e.from != e.to && e.message.Campaign?
    ensures e.term > 0 && e.from in n.peers
  {}

  lemma AbortsAreNoVotes(n: Node, e: Envelope)
    requires e.message.CampaignResponse?
    ensures e !in Aborts(n)
  {}

  /** In particular, a voter whose log is a prefix of the candidate's grants the vote, however much longer that is. */
  lemma PrefixGranted(run: Run, i: nat, e: Envelope)
    requires run.Valid() && i < |run.actions| && run.actions[i] == Deliver(e) && e.message.Campaign?
    requires run.At(i, e.to) && run.At(i, e.from) && !run.Node(i, e.to).role.Halted?
    requires MayVote(run.Node(i, e.to), e.from, e.term)
    requires run.Node(i, e.from).role.Candidate? && run.Node(i, e.from).log.term == e.term
    requires run.Node(i, e.to).log.entries <= run.Node(i, e.from).log.entries
    ensures Envelope(e.to, e.term, e.from, CampaignResponse(true)) in run.states[i + 1].net
  {
    hide Init, NodeOk, MailOk, Explains, HistoryOk;
    var h := Explain(run, i);
    ExplainedParts(run, i, h);
    ExplainedPast(run, i, h, i, e.to);
    assert run.Moves(i);
    CandidateLog(h, run.states[0].nodes.Keys, run.Node(i, e.from), e);
    PrefixAtMost(h, run.states[0].nodes.Keys, run.Node(i, e.to).log.entries, run.Node(i, e.from));
    VotesIff(run, i, e);
  }

  lemma CandidateLog(h: History, ids: set<NodeID>, n: Node, e: Envelope)
    requires NodeOk(h, ids, n) && MailOk(h, ids, e) && e.from == n.id && e.message.Campaign?
    requires n.role.Candidate? && n.log.term == e.term
    ensures e.message.lastIndex == |n.log.entries| && e.message.lastTerm == LastTerm(n.log.entries)
  {
    hide DurableOk;
  }

  lemma PrefixAtMost(h: History, ids: set<NodeID>, l: seq<Entry>, n: Node)
    requires HistoryOk(h, ids) && NodeOk(h, ids, n) && l <= n.log.entries
    ensures AtMostAt(l, |n.log.entries|, LastTerm(n.log.entries))
  {
    hide BallotsOk, AcksOk, CommitsOk, ArrivalsOk, VoteMatches, AcksKept, CommitsKept, TermCurrent, RoleOk, LogOk;
    if n.log.entries != [] {
      var end := |n.log.entries| - 1;
      TermsAscending(h, ids, n.log.entries, if l != [] then |l| - 1 else 0, end);
    }
  }

  // ---------------------------------------------------------------- who is followed

  /** A message that only a leader sends to its peers. */
  predicate OfLeader(m: Message) { m.Heartbeat? || m.Append? || m.Read? }

  /** The node follows this one in this term. */
  predicate FollowsIn(n: Node, leader: NodeID, term: Term) {
    n.role.Follower? && n.role.leader == Some(leader) && n.log.term == term
  }

  /**
   * Every live node that has seen no later term follows the sender of a leader's message, and acknowledges it:
   * it confirms reads at once, and tells whether it holds the last entry of a heartbeat.
   */
  lemma FollowsSender(run: Run, i: nat, e: Envelope)
    requires run.Valid() && i < |run.actions| && run.actions[i] == Deliver(e) && OfLeader(e.message)
    requires run.At(i, e.to) && !run.Node(i, e.to).role.Halted? && run.Node(i, e.to).log.term <= e.term
    ensures run.At(i + 1, e.to) && FollowsIn(run.Node(i + 1, e.to), e.from, e.term)
    ensures e.message.Read? ==>
      Envelope(e.to, e.term, e.from, ReadResponse(e.message.readSeq)) in run.states[i + 1].net
    ensures e.message.Heartbeat? ==>
      var has := Has(run.Node(i, e.to).log.entries, e.message.lastIndex, e.term);
      Envelope(e.to, e.term, e.from, HeartbeatResponse(if has then e.message.lastIndex else 0, e.message.readSeq))
        in run.states[i + 1].net
  {
    hide Init, Step, Has, ReachablePanic;
    assert run.Moves(i);
    IdsFixed(run, i, e.to);
    Hears(run.Node(i, e.to), e);
    if run.Node(i + 1, e.to).role.Halted? { HaltsOnlyAfterRestart(run, i + 1, e.to); }
  }

  /** What a leader's message does: the node halts for a reason that no run reaches, or follows and answers. */
  lemma Hears(n: Node, e: Envelope)
    requires OfLeader(e.message) && !n.role.Halted? && n.log.term <= e.term && e.to == n.id
    ensures var o := Step(n, e);
      if o.node.role.Halted? then !ReachablePanic(o.node.role.panic)
      else
        && FollowsIn(o.node, e.from, e.term)
        && (e.message.Read? ==> Envelope(n.id, e.term, e.from, ReadResponse(e.message.readSeq)) in o.sent)
        && (e.message.Heartbeat? ==>
              var has := Has(n.log.entries, e.message.lastIndex, e.term);
              Envelope(n.id, e.term, e.from,
                HeartbeatResponse(if has then e.message.lastIndex else 0, e.message.readSeq)) in o.sent)
  {
    hide StepFollower, Has;
    if n.log.term < e.term {
      FollowerHears(EnterTerm(n, e.term).node, e);
    } else if n.role.Follower? {
      FollowerHears(n, e);
    } else {
      FollowerHears(n.(role := Follower(Some(e.from), {})), e);
    }
  }

  lemma FollowerHears(n: Node, e: Envelope)
    requires n.role.Follower? && OfLeader(e.message) && n.log.term == e.term
    ensures var o := StepFollower(n, e);
      if o.node.role.Halted? then !ReachablePanic(o.node.role.panic)
      else
        && FollowsIn(o.node, e.from, e.term)
        && (e.message.Read? ==> Envelope(n.id, e.term, e.from, ReadResponse(e.message.readSeq)) in o.sent)
        && (e.message.Heartbeat? ==>
              var has := Has(n.log.entries, e.message.lastIndex, e.term);
              Envelope(n.id, e.term, e.from,
                HeartbeatResponse(if has then e.message.lastIndex else 0, e.message.readSeq)) in o.sent)
  {
    hide Splice, Has;
    if e.message.Append? { SpliceHalts(n.log, e.message.entries); }
  }

  lemma SpliceHalts(log: Log, es: seq<Entry>)
    ensures var r := Splice(log, es); if r.Failed? then !ReachablePanic(r.panic) else r.log.term == log.term
  {}

  // ---------------------------------------------------------------- who can lead

  /** The first log is not ahead of the second. */
  predicate NotAhead(a: seq<Entry>, b: seq<Entry>) { AtMostAt(a, |b|, LastTerm(b)) }

  /** A timer that fires at a node that does not lead makes it a candidate of the next term. */
  lemma TickCampaigns(n: Node)
    requires n.role.Follower? || n.role.Candidate?
    ensures var o := Tick(n);
      && o.node.role == Candidate({n.id})
      && o.node.log == n.log.(term := n.log.term + 1, vote := Some(n.id))
      && o.node == n.(applied := o.node.applied, log := o.node.log, role := o.node.role)
      && forall q :: q in n.peers ==>
           Envelope(n.id, n.log.term + 1, q, Campaign(|n.log.entries|, LastTerm(n.log.entries))) in o.sent
  {
    hide LastTerm;
    var m := if n.role.Follower? then MaybeApply(n) else n;
    forall q | q in n.peers
      ensures Envelope(n.id, n.log.term + 1, q, Campaign(|n.log.entries|, LastTerm(n.log.entries))) in Tick(n).sent
    {
      CampaignSent(m, q);
    }
  }

  lemma CampaignSent(n: Node, q: NodeID)
    requires q in n.peers
    ensures HoldElection(n).node.role == Candidate({n.id})
    ensures var campaign := Campaign(|n.log.entries|, LastTerm(n.log.entries));
      Envelope(n.id, n.log.term + 1, q, campaign) in HoldElection(n).sent
  {
    hide LastTerm;
    var o := HoldElection(n);
    assert Mail(o.node, q, Campaign(|n.log.entries|, LastTerm(n.log.entries))) in o.sent;
  }

  /** The other nodes at the end of the first run are as at the end of the second. */
  ghost predicate OthersSame(run: Run, run': Run, p: NodeID)
    requires run.states != [] && run'.states != []
  {
    && Last(run').nodes.Keys == Last(run).nodes.Keys
    && forall q :: q in Last(run).nodes && q != p ==> Last(run').nodes[q] == Last(run).nodes[q]
  }

  /** A node that is not leader can campaign in as late a term as need be. */
  lemma {:induction false} Campaigns(run: Run, p: NodeID, term: Term) returns (run': Run)
    requires run.Valid() && p in Last(run).nodes
    requires Last(run).nodes[p].role.Follower? || Last(run).nodes[p].role.Candidate?
    ensures run'.Valid() && run.states <= run'.states && OthersSame(run, run', p)
    ensures Campaigning(run', p) && Last(run').nodes[p].role == Candidate({p}) && Last(run').nodes[p].log.term > term
    ensures Last(run').nodes[p].log.entries == Last(run).nodes[p].log.entries
    decreases if Last(run).nodes[p].log.term > term then 0 else term + 1 - Last(run).nodes[p].log.term
  {
    hide Init, Next, Tick, Holds;
    var n := Last(run).nodes[p];
    var h, ids := Held(run);
    assert n.id == p && n.peers == ids - {p} && ids == Last(run).nodes.Keys by {
      HeldNode(run, h, ids, p);
      HeldIds(run, h, ids);
    }
    TickCampaigns(n);
    var run1 := Then(run, Timeout(p), Tick(n));
    if n.log.term + 1 > term {
      run' := run1;
      forall q | q in Last(run1).nodes && q != p
        ensures Envelope(p, n.log.term + 1, q, Campaign(|n.log.entries|, LastTerm(n.log.entries))) in Last(run1).net
      {
        assert q in n.peers;
      }
    } else {
      run' := Campaigns(run1, p, term);
    }
  }

  lemma HeldIds(run: Run, h: History, ids: set<NodeID>)
    requires run.states != [] && Holds(run, h, ids)
    ensures ids == Last(run).nodes.Keys
  {
    hide Holding;
  }

  /** A candidate whose campaign is under way to every other node. */
  ghost predicate Campaigning(run: Run, p: NodeID)
    requires run.states != []
  {
    && p in Last(run).nodes
    && var n := Last(run).nodes[p];
       && n.role.Candidate?
       && forall q :: q in Last(run).nodes && q != p ==>
            Envelope(p, n.log.term, q, Campaign(|n.log.entries|, LastTerm(n.log.entries))) in Last(run).net
  }

  /** A live node that has not reached the candidate's term, and is not ahead of its log. */
  predicate Willing(n: Node, candidate: Node) {
    !n.role.Halted? && n.log.term < candidate.log.term && NotAhead(n.log.entries, candidate.log.entries)
  }

  /** A live node that has reached no later term than the leader or candidate. */
  predicate Following(n: Node, leader: Node) {
    !n.role.Halted? && n.log.term <= leader.log.term
  }

  /** The election so far: who voted, who is still to be asked, and no majority yet. */
  ghost predicate Polling(run: Run, p: NodeID, live: set<NodeID>, todo: set<NodeID>)
    requires run.states != []
  {
    && Campaigning(run, p)
    && p in live && live <= Last(run).nodes.Keys && todo <= live - {p}
    && var n := Last(run).nodes[p];
       && live <= n.role.votes + todo
       && 2 * |n.role.votes| <= |Last(run).nodes.Keys|
       && (forall q :: q in todo ==> Willing(Last(run).nodes[q], n))
       && (forall q :: q in live ==> Following(Last(run).nodes[q], n))
  }

  /** What is reached: `p` leads, and no live node is ahead of its term. */
  ghost predicate Leads(run: Run, p: NodeID, live: set<NodeID>)
    requires run.states != []
  {
    && p in live && live <= Last(run).nodes.Keys
    && Last(run).nodes[p].role.Leader?
    && forall q :: q in live ==> Following(Last(run).nodes[q], Last(run).nodes[p])
  }

  /** One more node is asked and votes. */
  lemma PollNext(run: Run, p: NodeID, live: set<NodeID>, todo: set<NodeID>, q: NodeID) returns (run': Run)
    requires run.Valid() && Polling(run, p, live, todo) && q in todo
    ensures run'.Valid() && run.states <= run'.states && Last(run').nodes.Keys == Last(run).nodes.Keys
    ensures Leads(run', p, live) || Polling(run', p, live, todo - {q})
  {
    hide Init, Next, Step, Holds, NodeOk, MailOk, HistoryOk;
    var h, ids := Held(run);
    HeldNode(run, h, ids, p);
    HeldNode(run, h, ids, q);
    HeldIds(run, h, ids);
    var n := Last(run).nodes[p];
    var e := Envelope(p, n.log.term, q, Campaign(|n.log.entries|, LastTerm(n.log.entries)));
    assert MailOk(h, ids, e) by { HeldMail(run, h, ids, e); }
    VoteStep(h, ids, Last(run).nodes[q], e);
    var vote := Envelope(q, n.log.term, p, CampaignResponse(true));
    var run1 := Takes(run, e);
    CandidateReady(h, ids, n);
    CountsVote(n, vote);
    run' := Takes(run1, vote);
    Polled(run, run', p, live, todo, q);
  }

  lemma HeldMail(run: Run, h: History, ids: set<NodeID>, e: Envelope)
    requires run.states != [] && Holds(run, h, ids) && e in Last(run).net
    ensures MailOk(h, ids, e)
  {
    hide Holding, MailOk, HistoryOk;
  }

  lemma CandidateReady(h: History, ids: set<NodeID>, n: Node)
    requires NodeOk(h, ids, n) && n.role.Candidate?
    ensures n.log.term > 0 && n.log.vote == Some(n.id) && n.id !in n.peers && ClusterSize(n) == |ids|
  {
    hide DurableOk;
    assert StaticOk(ids, n.id, n.peers, n.maxAppend) by { Static(h, ids, n); }
    assert ids == n.peers + {n.id};
  }

  lemma Static(h: History, ids: set<NodeID>, n: Node)
    requires NodeOk(h, ids, n)
    ensures StaticOk(ids, n.id, n.peers, n.maxAppend)
  {}

  /** A granted vote is counted, and wins the election as soon as the votes are a majority. */
  lemma CountsVote(n: Node, e: Envelope)
    requires n.role.Candidate? && e.message == CampaignResponse(true) && e.from in n.peers && e.term == n.log.term
    requires n.log.term > 0 && n.log.vote == Some(n.id) && n.id !in n.peers
    ensures var o := Step(n, e);
      var votes := n.role.votes + {e.from};
      if 2 * |votes| > ClusterSize(n) then o.node.role.Leader? && o.node.log.term == n.log.term
      else o == Quiet(n.(role := Candidate(votes)))
  {
    hide StepCandidate;
    RaftDecisions.ElectedIff(n, e);
  }

  lemma Polled(run: Run, run': Run, p: NodeID, live: set<NodeID>, todo: set<NodeID>, q: NodeID)
    requires run.states != [] && run'.states != [] && Polling(run, p, live, todo) && q in todo
    requires p in Last(run').nodes && Last(run').nodes.Keys == Last(run).nodes.Keys && Last(run).net <= Last(run').net
    requires forall r :: r in Last(run).nodes && r != p && r != q ==> Last(run').nodes[r] == Last(run).nodes[r]
    requires !Last(run').nodes[q].role.Halted? && Last(run').nodes[q].log.term == Last(run).nodes[p].log.term
    requires var n, n' := Last(run).nodes[p], Last(run').nodes[p];
      var votes := n.role.votes + {q};
      if 2 * |votes| > |Last(run).nodes.Keys| then n'.role.Leader? && n'.log.term == n.log.term
      else n' == n.(role := Candidate(votes))
    ensures Leads(run', p, live) || Polling(run', p, live, todo - {q})
  {
    hide LastTerm, NotAhead;
  }

  /** Votes are collected until they are a majority. */
  lemma {:induction false} Polls(run: Run, p: NodeID, live: set<NodeID>, todo: set<NodeID>) returns (run': Run)
    requires run.Valid() && Polling(run, p, live, todo) && 2 * |live| > |Last(run).nodes.Keys|
    ensures run'.Valid() && run.states <= run'.states && Leads(run', p, live)
    decreases |todo|
  {
    hide Init, Next, Polling, Leads;
    SomeoneLeft(run, p, live, todo);
    var q :| q in todo;
    var run1 := PollNext(run, p, live, todo, q);
    if Leads(run1, p, live) {
      run' := run1;
    } else {
      run' := Polls(run1, p, live, todo - {q});
    }
  }

  lemma SomeoneLeft(run: Run, p: NodeID, live: set<NodeID>, todo: set<NodeID>)
    requires run.states != [] && Polling(run, p, live, todo) && 2 * |live| > |Last(run).nodes.Keys|
    ensures todo != {}
  {
    if live <= Last(run).nodes[p].role.votes { SubsetSize(live, Last(run).nodes[p].role.votes); }
  }

  /** A later term than those of these nodes. */
  lemma TermBound(nodes: map<NodeID, Node>, live: set<NodeID>) returns (term: Term)
    requires live <= nodes.Keys
    ensures forall q :: q in live ==> nodes[q].log.term <= term
  {
    term := 0;
    var todo := live;
    while todo != {}
      invariant todo <= live && forall q :: q in live && q !in todo ==> nodes[q].log.term <= term
      decreases |todo|
    {
      var q :| q in todo;
      if nodes[q].log.term > term { term := nodes[q].log.term; }
      todo := todo - {q};
    }
  }

  /**
   * A node can lead as soon as a majority of the cluster is live, with it, and no log among them is ahead of its own:
   * every such run goes on to a state where it leads, and none of them is in a later term.
   */
  lemma CanLead(run: Run, p: NodeID, live: set<NodeID>) returns (run': Run)
    requires run.Valid() && p in live && live <= Last(run).nodes.Keys && 2 * |live| > |Last(run).nodes.Keys|
    requires forall q :: q in live ==>
      !Last(run).nodes[q].role.Halted? && NotAhead(Last(run).nodes[q].log.entries, Last(run).nodes[p].log.entries)
    ensures run'.Valid() && run.states <= run'.states && Leads(run', p, live)
  {
    hide Init, Next, NotAhead;
    if Leads(run, p, live) {
      run' := run;
    } else {
      var run1 := StepsDown(run, p, live);
      var bound := TermBound(Last(run1).nodes, live);
      var run2 := Campaigns(run1, p, bound);
      PollsOpen(run1, run2, p, live, bound);
      run' := Polls(run2, p, live, live - {p});
    }
  }

  lemma PollsOpen(run: Run, run': Run, p: NodeID, live: set<NodeID>, bound: Term)
    requires run.states != [] && run'.states != [] && OthersSame(run, run', p) && Campaigning(run', p)
    requires p in live && live <= Last(run).nodes.Keys && |Last(run).nodes.Keys| > 1
    requires Last(run').nodes[p].role == Candidate({p}) && Last(run').nodes[p].log.term > bound
    requires Last(run').nodes[p].log.entries == Last(run).nodes[p].log.entries
    requires forall q :: q in live ==>
      && Last(run).nodes[q].log.term <= bound && !Last(run).nodes[q].role.Halted?
      && NotAhead(Last(run).nodes[q].log.entries, Last(run).nodes[p].log.entries)
    ensures Polling(run', p, live, live - {p})
  {
    hide NotAhead;
    assert live <= {p} + (live - {p});
    assert |{p}| == 1;
  }

  /** A leader left behind in its term restarts, and follows no one; other nodes that do not lead stay as they are. */
  lemma StepsDown(run: Run, p: NodeID, live: set<NodeID>) returns (run': Run)
    requires run.Valid() && p in live && live <= Last(run).nodes.Keys && !Leads(run, p, live)
    requires forall q :: q in live ==> !Last(run).nodes[q].role.Halted?
    ensures run'.Valid() && run.states <= run'.states && OthersSame(run, run', p)
    ensures |Last(run).nodes.Keys| > 1
    ensures Last(run').nodes[p].role.Follower? || Last(run').nodes[p].role.Candidate?
    ensures Last(run').nodes[p].log.entries == Last(run).nodes[p].log.entries
  {
    hide Init, Next, Start, Holds;
    var n := Last(run).nodes[p];
    if |Last(run).nodes.Keys| <= 1 { OneNode(run, p, live); }
    if n.role.Leader? {
      var h, ids := Held(run);
      HeldNode(run, h, ids, p);
      HeldIds(run, h, ids);
      Larger(ids, p);
      var action := Restart(p, n.log.commitIndex, |n.applied|);
      var run1 := Then(run, action, Effect(Last(run), action));
      RestartedAs(n);
      run' := run1;
    } else {
      run' := run;
    }
  }

  lemma Larger(ids: set<NodeID>, p: NodeID)
    requires p in ids && |ids| > 1
    ensures ids - {p} != {}
  {
    assert ids == (ids - {p}) + {p};
  }

  lemma RestartedAs(n: Node)
    requires n.peers != {}
    ensures var d := Durable(n, n.log.commitIndex, |n.applied|);
      var m := Start(d.id, d.peers, d.maxAppend, d.log, d.applied).node;
      m.role == Follower(None, {}) && m.log.entries == n.log.entries
  {
    hide Start, BecomeCandidate, BecomeLeader;
    RaftStep.StartMeans(Durable(n, n.log.commitIndex, |n.applied|));
  }

  // ---------------------------------------------------------------- a node without peers

  lemma OneNode(run: Run, p: NodeID, live: set<NodeID>)
    requires run.Valid() && p in live && live <= Last(run).nodes.Keys && |Last(run).nodes.Keys| <= 1
    ensures Leads(run, p, live)
  {
    hide Init, Next;
    SubsetSize({p}, Last(run).nodes.Keys);
    SubsetSize(live, Last(run).nodes.Keys);
    assert live == {p};
    AloneLeads(run, |run.states| - 1, p);
  }

  /** A node without peers leads at all times. */
  lemma {:induction false} AloneLeads(run: Run, k: nat, p: NodeID)
    requires run.Valid() && run.At(k, p) && run.states[k].nodes.Keys == {p}
    ensures run.Node(k, p).role.Leader?
  {
    if k == 0 {
      hide Next;
      AloneStarts(run.states[0], run.maxAppend, p);
    } else {
      assert run.Moves(k - 1);
      hide Init, Effect;
      assert run.states[k - 1].nodes.Keys == {p} by { AloneBefore(run, k - 1, p); }
      AloneLeads(run, k - 1, p);
      AloneStep(run, k - 1, p);
      if run.Node(k, p).role.Halted? { AloneNeverHalts(run, k, p); }
    }
  }

  lemma AloneBefore(run: Run, k: nat, p: NodeID)
    requires run.Valid() && k < |run.actions| && run.states[k + 1].nodes.Keys == {p}
    ensures run.states[k].nodes.Keys == {p}
  {
    hide Init, Effect;
    assert run.Moves(k);
    var a := Actor(run.actions[k]);
    assert a in run.states[k].nodes && run.states[k + 1].nodes.Keys == run.states[k].nodes.Keys + {a};
  }

  lemma AloneStarts(c: Cluster, maxAppend: nat, p: NodeID)
    requires Init(c, maxAppend) && c.nodes.Keys == {p}
    ensures c.nodes[p].role.Leader?
  {
    hide Start;
    assert Started(c, maxAppend, p) && c.nodes.Keys - {p} == {};
    AloneElected(Node(p, {}, maxAppend, EMPTY_LOG, [], Follower(None, {})));
  }

  lemma AloneElected(n: Node)
    requires n.peers == {} && n.role == Follower(None, {})
    ensures var m := Start(n.id, n.peers, n.maxAppend, n.log, n.applied).node;
      m.role.Leader? && m.log.term == n.log.term + 1
  {
    hide Start, BecomeCandidate, BecomeLeader;
    RaftStep.StartMeans(n);
    AloneCandidate(MaybeApply(n));
    RaftDecisions.LeadsWithNoop(BecomeCandidate(MaybeApply(n)).node);
  }

  lemma AloneCandidate(n: Node)
    requires n.role.Follower?
    ensures var m := BecomeCandidate(n).node;
      && m.log.term == n.log.term + 1 && m.log.vote == Some(m.id) && m.peers == n.peers && m.id == n.id
  {}

  lemma AloneStep(run: Run, k: nat, p: NodeID)
    requires run.Valid() && k < |run.actions| && run.states[k].nodes.Keys == {p} && p in run.states[k + 1].nodes
    requires run.Node(k, p).role.Leader?
    ensures run.Node(k + 1, p).role.Leader? || run.Node(k + 1, p).role.Halted?
  {
    assert run.Moves(k);
    hide Init, Step, Tick, Start, Explains, NodeOk, MailOk;
    var n := run.Node(k, p);
    assert n.id == p && n.peers == {} by { AloneNode(run, k, p); }
    match run.actions[k] {
      case Deliver(e) => AloneHearsNothing(run, k, p, e);
      case Client(_, id, request) => ClientKeepsLeader(n, id, request);
      case Timeout(_) => TickKeepsLeader(n);
      case Restart(_, commitIndex, appliedIndex) => AloneElected(Durable(n, commitIndex, appliedIndex));
    }
  }

  lemma AloneNode(run: Run, k: nat, p: NodeID)
    requires run.Valid() && run.At(k, p) && run.states[k].nodes.Keys == {p}
    ensures run.Node(k, p).id == p && run.Node(k, p).peers == {}
  {
    hide Init, Next, Explains, NodeOk, MailOk;
    var h := Explain(run, k);
    ExplainedParts(run, k, h);
    SamePeople(run, k, h);
    NodeNamed(h, run.states[0].nodes.Keys, run.Node(k, p));
  }

  lemma AloneHearsNothing(run: Run, k: nat, p: NodeID, e: Envelope)
    requires run.Valid() && k < |run.states| && run.states[k].nodes.Keys == {p} && e in run.states[k].net
    ensures e.from == p
  {
    hide Init, Next, Explains, NodeOk;
    var h := Explain(run, k);
    ExplainedParts(run, k, h);
    SamePeople(run, k, h);
    assert MailOk(h, run.states[0].nodes.Keys, e);
  }

  lemma SamePeople(run: Run, k: nat, h: History)
    requires run.Shaped() && k < |run.states| && Explains(run, k, h)
    ensures run.states[0].nodes.Keys == run.states[k].nodes.Keys
  {
    hide ClusterOk, Remembered, ArrivalKnown, CommitKnown, RestartKnown, ProposalKnown;
  }

  lemma ClientKeepsLeader(n: Node, id: RequestID, request: Request)
    requires n.role.Leader?
    ensures var m := Step(n, Submit(n, id, request)).node; m.role.Leader? || m.role.Halted?
  {
    hide MaybeCommit, MaybeRead, Propose;
    match request {
      case WriteRequest(command) =>
        LeaderOrHalted(n, Some(command));
        var o := Propose(n, Some(command));
        if o.node.role.Leader? {
          LeaderOrHalted(o.node.(role := o.node.role.(
            writes := o.node.role.writes[|o.node.log.entries| := PendingWrite(n.id, id)])), None);
        }
      case ReadRequest(command) => LeaderOrHalted(AcceptRead(n, n.id, id, command).node, None);
      case StatusRequest =>
    }
  }

  lemma LeaderOrHalted(n: Node, command: Option<Command>)
    requires n.role.Leader?
    ensures Propose(n, command).node.role.Leader? || Propose(n, command).node.role.Halted?
    ensures MaybeCommit(n).node.role.Leader? || MaybeCommit(n).node.role.Halted?
    ensures MaybeRead(n).node.role.Leader? || MaybeRead(n).node.role.Halted?
  {
    hide QuorumValue, PlanAppend;
  }

  lemma TickKeepsLeader(n: Node)
    requires n.role.Leader?
    ensures Tick(n).node.role.Leader? || Tick(n).node.role.Halted?
  {}

  lemma AloneNeverHalts(run: Run, k: nat, p: NodeID)
    requires run.Valid() && run.At(k, p) && run.states[k].nodes.Keys == {p}
    ensures !run.Node(k, p).role.Halted?
  {
    if run.Node(k, p).role.Halted? {
      hide Init, Effect;
      HaltsOnlyAfterRestart(run, k, p);
      var i: nat :| i < k && RestartsIn(run, i, p, run.Node(k, p).log.term);
      RestartRaises(run, i, k, p);
    }
  }

  lemma RestartRaises(run: Run, i: nat, k: nat, p: NodeID)
    requires run.Valid() && i < k < |run.states| && run.states[k].nodes.Keys == {p}
    requires run.actions[i].Restart? && run.actions[i].at == p && run.At(i, p) && run.At(i + 1, p)
    ensures run.Node(i + 1, p).log.term == run.Node(i, p).log.term + 1
  {
    hide Init, Next, Explains, NodeOk, MailOk;
    var h := Explain(run, k);
    var g := Explain(run, i);
    SamePeople(run, k, h);
    SamePeople(run, i, g);
    AloneNode(run, i, p);
    assert run.Moves(i);
    RestartNode(run.states[i], run.actions[i], run.states[i + 1]);
  }

  lemma RestartNode(c: Cluster, a: Action, c': Cluster)
    requires Next(c, a, c') && a.Restart? && c.nodes[a.at].peers == {}
    ensures a.at in c'.nodes && c'.nodes[a.at].log.term == c.nodes[a.at].log.term + 1
  {
    hide Start;
    AloneElected(Durable(c.nodes[a.at], a.commitIndex, a.appliedIndex));
  }
}
