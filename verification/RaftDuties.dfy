/** What every node does for its clients, over every run: it answers as soon as it can, and loses no request. */
module RaftDuties {
  import opened Common
  import opened RaftLog
  import opened RaftNode
  import opened RaftHistory
  import opened RaftInvariant
  import opened RaftCluster
  import opened RaftService
  import RaftClients
  import RaftStep

  // ---------------------------------------------------------------- one step of a node

  /** What is committed is applied, and a leader has nothing left to do. */
  ghost predicate Dutiful(n: Node) {
    n.role.Halted? || (n.log.commitIndex <= |n.applied| && (n.role.Leader? ==> Prompt(n)))
  }

  lemma PromptDutiful(n: Node)
    requires n.role.Halted? || Prompt(n)
    ensures Dutiful(n)
  {
    hide Tallied, Served, Within;
  }

  lemma LeaderServes(n: Node, e: Envelope)
    requires Prompt(n) && (e.message.ReadResponse? ==> e.message.readSeq <= n.role.readSeq)
    ensures var o := StepLeader(n, e);
      && Dutiful(o.node) && Goes(n, o) && Keeps(n, o)
      && (e.message.ClientRequest? ==> InHand(n.id, o, e.from, e.message.id))
  {
    hide OnHeartbeatResponse, OnAppendResponse, ConfirmRead, OnWrite, OnRead, Goes, Keeps, Prompt, Held;
    PromptLeads(n);
    GoesQuiet(n);
    var o := StepLeader(n, e);
    match e.message {
      case HeartbeatResponse(matchIndex, readSeq) => HeartbeatResponseServes(n, e.from, matchIndex, readSeq);
      case AppendResponse(matchIndex, rejectIndex) => AppendResponseServes(n, e.from, matchIndex, rejectIndex);
      case ReadResponse(readSeq) => ConfirmReadServes(n, e.from, readSeq);
      case ClientRequest(id, request) =>
        match request {
          case WriteRequest(command) => WriteServes(n, e.from, id, command);
          case ReadRequest(command) => ReadServed(n, e.from, id, command);
          case StatusRequest =>
            var answer :| answer in o.sent;
            TellsBy(n.id, o, answer);
            GoesOn(n, o.node, o.sent);
        }
      case Campaign(_, _) => GoesOn(n, o.node, o.sent);
      case CampaignResponse(_) =>
      case _ => HaltGoes(n, o);
    }
    GoesKeeps(n, o);
    PromptDutiful(o.node);
  }

  /** In its term, a leader goes on, keeping the requests it has in hand until it answers them. */
  lemma StepGoes(n: Node, e: Envelope)
    requires Prompt(n) && (e.from in n.peers || e.from == n.id)
    requires e.message.ReadResponse? && e.term == n.log.term ==> e.message.readSeq <= n.role.readSeq
    ensures var o := Step(n, e); Goes(n, o) || o.node.log.term > n.log.term
  {
    hide StepLeader, StepFollower, Goes, Prompt;
    PromptLeads(n);
    GoesQuiet(n);
    if e.term == n.log.term {
      LeaderServes(n, e);
    } else if e.term > n.log.term {
      FollowerTerm(EnterTerm(n, e.term).node, e);
    }
  }

  lemma FollowerTerm(n: Node, e: Envelope)
    requires n.role.Follower?
    ensures StepFollower(n, e).node.log.term == n.log.term
  {
    hide Splice;
    if e.message.Append? { SpliceKeepsCommit(n.log, e.message.entries); }
  }

  lemma TickGoes(n: Node)
    requires n.role.Leader?
    ensures Goes(n, Tick(n))
  {}

  /** No entry of the node's term yet. */
  predicate Older(n: Node) { forall i :: 0 <= i < |n.log.entries| ==> n.log.entries[i].term < n.log.term }

  lemma CrownDutiful(n: Node)
    requires Ordered(n) && Older(n) && n.id !in n.peers
    ensures Dutiful(BecomeLeader(n).node)
  {
    hide Propose, MaybeCommit, Fit, Prompt, Ordered, Older;
    if n.log.term > 0 && n.log.vote == Some(n.id) {
      var start := n.(role := Leader(NewProgress(n), map[], [], 0));
      StartFits(n, start);
      ProposeServes(start, None);
      var o1 := Propose(start, None);
      if o1.node.role.Leader? {
        CommitServes(o1.node);
        PromptDutiful(MaybeCommit(o1.node).node);
      } else {
        ProposedEnds(start, None);
        CommitMeans(o1.node);
      }
    }
  }

  lemma StartFits(n: Node, start: Node)
    requires Ordered(n) && Older(n) && n.id !in n.peers
    requires start == n.(role := Leader(NewProgress(n), map[], [], 0))
    ensures Fit(start) && Backed(start) && Served(start)
  {
    assert start.role.progress.Keys == n.peers;
  }

  // ---------------------------------------------------------------- followers and candidates

  lemma SpliceKeepsCommit(log: Log, es: seq<Entry>)
    ensures var r := Splice(log, es); r.Done? ==> r.log.commitIndex == log.commitIndex && r.log.term == log.term
  {}

  /** What a follower commits it applies; the requests it forwarded it keeps, answers or aborts. */
  lemma FollowerServes(n: Node, e: Envelope)
    requires n.role.Follower? && n.log.commitIndex <= |n.applied|
    ensures var o := StepFollower(n, e);
      && Dutiful(o.node) && Keeps(n, o)
      && (e.message.ClientRequest? ==> InHand(n.id, o, e.from, e.message.id))
  {
    hide Splice, Prompt, Keeps, Aborts, OnHeartbeat, OnAppend, OnCampaign;
    var o := StepFollower(n, e);
    match e.message {
      case Heartbeat(lastIndex, commitIndex, readSeq) =>
        HeardKeeps(n, e.from);
        var m := HearLeader(n, e.from).node;
        HeartbeatServes(m, e.from, lastIndex, commitIndex, readSeq);
        KeepsThrough(n, HearLeader(n, e.from), o);
      case Append(baseIndex, baseTerm, entries) =>
        HeardKeeps(n, e.from);
        AppendServes(HearLeader(n, e.from).node, e.from, baseIndex, baseTerm, entries);
        KeepsThrough(n, HearLeader(n, e.from), o);
      case Read(_) =>
        HeardKeeps(n, e.from);
        KeepsThrough(n, HearLeader(n, e.from), o);
      case Campaign(lastIndex, lastTerm) =>
        CampaignServes(n, e.from, lastIndex, lastTerm);
        SameRoleKeeps(n, o);
      case ClientRequest(id, request) =>
        ForwardServes(n, e);
      case ClientResponse(id, response) =>
        RelayServes(n, e);
      case _ => SameRoleKeeps(n, o);
    }
  }

  lemma SameRoleKeeps(n: Node, o: Out)
    requires o.node.role.Halted? || (o.node.role == n.role && o.node.id == n.id)
    ensures Keeps(n, o)
  {}

  lemma KeepsThrough(n: Node, a: Out, o: Out)
    requires Keeps(n, a)
    requires !o.node.role.Halted? ==>
      a.sent <= o.sent && !a.node.role.Halted? && o.node.role == a.node.role && o.node.id == a.node.id
    ensures Keeps(n, o)
  {}

  lemma HeardKeeps(n: Node, from: NodeID)
    requires n.role.Follower?
    ensures var o := HearLeader(n, from);
      && Keeps(n, o) && o.node.log == n.log && o.node.applied == n.applied && o.node.id == n.id
      && (o.node.role.Halted? || o.node.role.Follower?)
  {
    hide Aborts, Keeps, Held, Told;
    var o := HearLeader(n, from);
    if n.role.leader.None? && from in n.peers {
      AbortsKeep(n, o);
    } else {
      SameRoleKeeps(n, o);
    }
  }

  lemma HeartbeatServes(n: Node, from: NodeID, lastIndex: Index, commitIndex: Index, readSeq: nat)
    requires n.log.commitIndex <= |n.applied|
    ensures var o := OnHeartbeat(n, from, lastIndex, commitIndex, readSeq);
      && (o.node.role.Halted? || o.node == n.(log := o.node.log, applied := o.node.applied))
      && (o.node.role.Halted? || o.node.log.commitIndex <= |o.node.applied|)
  {}

  lemma AppendServes(n: Node, from: NodeID, baseIndex: Index, baseTerm: Term, entries: seq<Entry>)
    requires n.log.commitIndex <= |n.applied|
    ensures var o := OnAppend(n, from, baseIndex, baseTerm, entries);
      && (o.node.role.Halted? || o.node == n.(log := o.node.log))
      && (o.node.role.Halted? || o.node.log.commitIndex == n.log.commitIndex)
  {
    hide Splice;
    SpliceKeepsCommit(n.log, entries);
  }

  lemma CampaignServes(n: Node, from: NodeID, lastIndex: Index, lastTerm: Term)
    ensures var o := OnCampaign(n, from, lastIndex, lastTerm);
      o.node.role.Halted? || (o.node == n.(log := o.node.log) && o.node.log.commitIndex == n.log.commitIndex)
  {}

  lemma ForwardServes(n: Node, e: Envelope)
    requires n.role.Follower? && e.message.ClientRequest?
    ensures var o := StepFollower(n, e);
      && Keeps(n, o) && InHand(n.id, o, e.from, e.message.id)
      && (o.node.role.Halted? || o.node == n.(role := o.node.role)) && !o.node.role.Leader?
  {
    if e.from == n.id && n.role.leader.None? {
      TellsBy(n.id, StepFollower(n, e), Mail(n, e.from, ClientResponse(e.message.id, Abort)));
    }
  }

  lemma RelayServes(n: Node, e: Envelope)
    requires n.role.Follower? && e.message.ClientResponse?
    ensures var o := StepFollower(n, e);
      Keeps(n, o) && (o.node.role.Halted? || o.node == n.(role := o.node.role)) && !o.node.role.Leader?
  {
    if n.role.leader == Some(e.from) && e.message.id in n.role.forwarded {
      TellsBy(n.id, StepFollower(n, e), Mail(n, n.id, e.message));
    }
  }

  /** A candidate has no requests in hand, and aborts those it gets. */
  lemma CandidateServes(n: Node, e: Envelope)
    requires n.role.Candidate? && Ordered(n) && Older(n) && n.id !in n.peers
    ensures var o := StepCandidate(n, e);
      && Dutiful(o.node) && Keeps(n, o)
      && (e.message.ClientRequest? ==> InHand(n.id, o, e.from, e.message.id))
  {
    hide StepFollower, BecomeLeader, Dutiful, Older;
    assert n.log.commitIndex <= |n.applied| by { OrderedApplied(n); }
    WaitsDutiful(n);
    var o := StepCandidate(n, e);
    match e.message {
      case CampaignResponse(_) =>
        var n' := n.(role := Candidate(n.role.votes + {e.from}));
        assert Older(n') && Ordered(n') by { OrderedKept(n, n'); OlderKept(n, n'); }
        CrownDutiful(n');
        WaitsDutiful(n');
      case Heartbeat(_, _, _) => FollowerServes(n.(role := Follower(Some(e.from), {})), e);
      case Append(_, _, _) => FollowerServes(n.(role := Follower(Some(e.from), {})), e);
      case Read(_) => FollowerServes(n.(role := Follower(Some(e.from), {})), e);
      case ClientRequest(id, _) => TellsBy(n.id, o, Mail(n, e.from, ClientResponse(id, Abort)));
      case _ => WaitsDutiful(o.node);
    }
  }

  lemma WaitsDutiful(n: Node)
    requires n.role.Halted? || (!n.role.Leader? && n.log.commitIndex <= |n.applied|)
    ensures Dutiful(n)
  {}

  lemma OlderKept(n: Node, n': Node)
    requires Older(n) && n'.log == n.log
    ensures Older(n')
  {}

  // ---------------------------------------------------------------- one step of a node, in a state of a run

  lemma OrderedNow(h: History, ids: set<NodeID>, n: Node)
    requires HistoryOk(h, ids) && NodeOk(h, ids, n) && n.log.commitIndex <= |n.applied|
    ensures Ordered(n) && n.id !in n.peers && (n.role.Candidate? ==> Older(n))
  {
    hide BallotsOk, AcksOk, CommitsOk, ArrivalsOk, VoteMatches, AcksKept, TermCurrent, LogOk, LeaderOk, FollowerOk;
    forall i, j | 0 <= i <= j < |n.log.entries|
      ensures n.log.entries[i].term <= n.log.entries[j].term <= n.log.term
    {
      TermsAscending(h, ids, n.log.entries, i, j);
    }
  }

  lemma StepServes(h: History, ids: set<NodeID>, n: Node, e: Envelope)
    requires HistoryOk(h, ids) && NodeOk(h, ids, n) && MailOk(h, ids, e) && e.to == n.id && Dutiful(n)
    ensures var o := Step(n, e);
      && Dutiful(o.node) && Keeps(n, o)
      && (e.message.ClientRequest? && e.term >= n.log.term && !n.role.Halted? ==> InHand(n.id, o, e.from, e.message.id))
  {
    hide HistoryOk, NodeOk, MailOk, Keeps, StepFollower, StepCandidate, StepLeader, Prompt, Held, Told, Ordered, Older;
    if n.role.Halted? {
      SameRoleKeeps(n, Quiet(n));
    } else {
      SenderKnown(h, ids, n, e);
      OrderedNow(h, ids, n);
      if e.term < n.log.term {
        SameRoleKeeps(n, Quiet(n));
      } else if e.term > n.log.term {
        var o := EnterTerm(n, e.term);
        FollowerServes(o.node, e);
        AbortsKeep(n, Join(o, StepFollower(o.node, e)));
        if e.message.ClientRequest? {
          InHandMore(n.id, StepFollower(o.node, e), Join(o, StepFollower(o.node, e)), e.from, e.message.id);
        }
      } else {
        match n.role {
          case Follower(_, _) => FollowerServes(n, e);
          case Candidate(_) => CandidateServes(n, e);
          case Leader(_, _, _, _) =>
            ReadKnown(h, ids, n, e);
            LeaderServes(n, e);
        }
      }
    }
  }

  lemma SenderKnown(h: History, ids: set<NodeID>, n: Node, e: Envelope)
    requires NodeOk(h, ids, n) && MailOk(h, ids, e)
    ensures e.from in n.peers || e.from == n.id
  {}

  lemma ReadKnown(h: History, ids: set<NodeID>, n: Node, e: Envelope)
    requires NodeOk(h, ids, n) && MailOk(h, ids, e) && n.role.Leader? && e.term == n.log.term
    ensures e.message.ReadResponse? ==> e.message.readSeq <= n.role.readSeq
  {
    hide NodeOk;
    if e.message.ReadResponse? { RaftStep.ReadSeqKnown(h, ids, n, e.from, e.message.readSeq); }
  }

  lemma TickServes(n: Node)
    requires Dutiful(n)
    ensures Dutiful(Tick(n).node) && Keeps(n, Tick(n))
  {
    hide Prompt, Keeps, Held, Told, Aborts;
    match n.role {
      case Follower(_, _) => AbortsKeep(n, Tick(n));
      case Candidate(_) => CandidateKeeps(n, Tick(n));
      case _ => SameRoleKeeps(n, Tick(n));
    }
  }

  lemma CandidateKeeps(n: Node, o: Out)
    requires n.role.Candidate?
    ensures Keeps(n, o)
  {}

  lemma StartServes(h: History, ids: set<NodeID>, n: Node)
    requires HistoryOk(h, ids) && DurableOk(h, ids, n) && n.role == Follower(None, {})
    ensures Dutiful(Start(n.id, n.peers, n.maxAppend, n.log, n.applied).node)
  {
    hide HistoryOk, BecomeLeader, Start, Prompt, BecomeCandidate;
    RaftStep.StartMeans(n);
    var n1 := MaybeApply(n);
    AppliesCommitted(h, ids, n);
    if n.peers == {} {
      var c := BecomeCandidate(n1).node;
      CampaignOrdered(h, ids, n1, c);
      CrownDutiful(c);
    }
  }

  lemma AppliesCommitted(h: History, ids: set<NodeID>, n: Node)
    requires HistoryOk(h, ids) && DurableOk(h, ids, n)
    ensures var n1 := MaybeApply(n);
      && n1.log == n.log && n1.role == n.role && n1.id == n.id && n1.peers == n.peers
      && n.log.commitIndex <= |n1.applied| <= |n.log.entries| && n.id !in n.peers
      && forall i, j :: 0 <= i <= j < |n.log.entries| ==> n.log.entries[i].term <= n.log.entries[j].term <= n.log.term
  {
    hide BallotsOk, AcksOk, CommitsOk, ArrivalsOk, VoteMatches, AcksKept, TermCurrent, LogOk;
    forall i, j | 0 <= i <= j < |n.log.entries|
      ensures n.log.entries[i].term <= n.log.entries[j].term <= n.log.term
    {
      TermsAscending(h, ids, n.log.entries, i, j);
    }
  }

  lemma CampaignOrdered(h: History, ids: set<NodeID>, n: Node, c: Node)
    requires n.role.Follower? && c == BecomeCandidate(n).node && n.log.commitIndex <= |n.applied| <= |n.log.entries|
    requires forall i, j :: 0 <= i <= j < |n.log.entries| ==>
      n.log.entries[i].term <= n.log.entries[j].term <= n.log.term
    ensures Ordered(c) && Older(c) && c.id == n.id && c.peers == n.peers
  {
    assert Between(n.log.entries, |n.applied|, n.log.commitIndex) == [];
  }

  // ---------------------------------------------------------------- over runs

  /** The acting node stays dutiful, and keeps the requests it has in hand and the one it gets, unless it restarts. */
  ghost predicate Serves(c: Cluster, a: Action, o: Out)
    requires Enabled(c, a)
  {
    var n := c.nodes[Actor(a)];
    && Dutiful(o.node)
    && (!a.Restart? ==> Keeps(n, o))
    && (Delivered(c, a).Some? ==> Accepts(n, Delivered(c, a).value, o))
  }

  ghost predicate Accepts(n: Node, e: Envelope, o: Out) {
    e.message.ClientRequest? && e.term >= n.log.term && !n.role.Halted? ==> InHand(n.id, o, e.from, e.message.id)
  }

  lemma EffectServes(c: Cluster, h: History, ids: set<NodeID>, a: Action)
    requires ClusterOk(c, h, ids) && Enabled(c, a) && Dutiful(c.nodes[Actor(a)])
    ensures Serves(c, a, Effect(c, a))
  {
    hide Step, Tick, Start, HistoryOk, NodeOk, MailOk, Keeps, Dutiful, InHand;
    var n := c.nodes[Actor(a)];
    match a {
      case Deliver(e) => StepServes(h, ids, n, e);
      case Client(_, id, request) =>
        SubmitOk(h, ids, n, id, request);
        StepServes(h, ids, n, Submit(n, id, request));
      case Timeout(_) => TickServes(n);
      case Restart(_, commitIndex, appliedIndex) => DurableServes(h, ids, n, commitIndex, appliedIndex);
    }
  }

  lemma ActorServes(run: Run, k: nat)
    requires run.Valid() && k < |run.actions| && run.At(k, Actor(run.actions[k]))
    requires Dutiful(run.Node(k, Actor(run.actions[k])))
    ensures Enabled(run.states[k], run.actions[k])
    ensures Serves(run.states[k], run.actions[k], Effect(run.states[k], run.actions[k]))
  {
    hide Init, Dutiful, Explains, ClusterOk, Effect, Serves, Enabled;
    assert run.Moves(k);
    var h := Explain(run, k);
    ExplainedCluster(run, k, h);
    EffectServes(run.states[k], h, run.states[0].nodes.Keys, run.actions[k]);
  }

  lemma ExplainedCluster(run: Run, k: nat, h: History)
    requires run.Shaped() && k < |run.states| && Explains(run, k, h)
    ensures ClusterOk(run.states[k], h, run.states[0].nodes.Keys)
  {
    hide ClusterOk, Remembered, ArrivalKnown, CommitKnown, RestartKnown, ProposalKnown;
  }

  lemma SubmitOk(h: History, ids: set<NodeID>, n: Node, id: RequestID, request: Request)
    requires NodeOk(h, ids, n)
    ensures MailOk(h, ids, Submit(n, id, request))
  {}

  lemma DurableServes(h: History, ids: set<NodeID>, n: Node, commitIndex: Index, appliedIndex: Index)
    requires HistoryOk(h, ids) && NodeOk(h, ids, n) && commitIndex <= n.log.commitIndex && appliedIndex <= |n.applied|
    ensures var d := Durable(n, commitIndex, appliedIndex);
      Dutiful(Start(d.id, d.peers, d.maxAppend, d.log, d.applied).node)
  {
    hide HistoryOk, DurableOk, Start, Dutiful, RoleOk;
    DurableNode(h, ids, n, commitIndex, appliedIndex);
    StartServes(h, ids, Durable(n, commitIndex, appliedIndex));
  }

  /** Every node has done all it can, in every state of every run. */
  lemma {:induction false} DutifulAt(run: Run, k: nat, p: NodeID)
    requires run.Valid() && run.At(k, p)
    ensures Dutiful(run.Node(k, p))
  {
    hide Dutiful, Keeps, Effect;
    if k == 0 {
      FirstDutiful(run, p);
    } else {
      assert run.Moves(k - 1);
      hide Init;
      DutifulAt(run, k - 1, p);
      if p == Actor(run.actions[k - 1]) {
        ActorServes(run, k - 1);
      }
    }
  }

  lemma FirstDutiful(run: Run, p: NodeID)
    requires run.Valid() && run.At(0, p)
    ensures Dutiful(run.Node(0, p))
  {
    hide Next, Dutiful, Start, HistoryOk, NodeOk;
    var ids := run.states[0].nodes.Keys;
    assert Started(run.states[0], run.maxAppend, p);
    BlankOk(p, ids, run.maxAppend);
    BlankDurable(p, ids, run.maxAppend);
    StartServes(NO_HISTORY, ids, Blank(p, ids, run.maxAppend));
  }

  lemma BlankDurable(p: NodeID, ids: set<NodeID>, maxAppend: nat)
    requires NodeOk(NO_HISTORY, ids, Blank(p, ids, maxAppend))
    ensures DurableOk(NO_HISTORY, ids, Blank(p, ids, maxAppend))
  {}

  /** In every state of every run, a live node has applied exactly what it knows to be committed, or more. */
  lemma CommittedIsApplied(run: Run, k: nat, p: NodeID)
    requires run.Valid() && run.At(k, p) && !run.Node(k, p).role.Halted?
    ensures CommittedPrefix(run.Node(k, p)) <= run.Node(k, p).applied <= run.Node(k, p).log.entries
  {
    hide Init, Next, Explains, NodeOk, Prompt;
    var h := Explain(run, k);
    ExplainedParts(run, k, h);
    DutifulAt(run, k, p);
    AppliedInLog(h, run.states[0].nodes.Keys, run.Node(k, p));
  }

  lemma AppliedInLog(h: History, ids: set<NodeID>, n: Node)
    requires NodeOk(h, ids, n)
    ensures n.applied <= n.log.entries && n.log.commitIndex <= |n.log.entries|
  {}

  /** The nodes the leader knows to hold its log up to an index. */
  function Holders(n: Node, i: Index): set<NodeID>
    requires n.role.Leader?
  {
    {n.id} + set q | q in n.role.progress && n.role.progress[q].matchIndex >= i
  }

  /**
   * In every state of every run, an entry of the leader's own term is committed exactly if the leader knows a majority
   * of the cluster, itself included, to hold it: it commits neither too early nor too late.
   */
  lemma CommittedExactly(run: Run, k: nat, p: NodeID, i: Index)
    requires run.Valid() && run.At(k, p) && run.Node(k, p).role.Leader?
    requires var n := run.Node(k, p); 1 <= i <= |n.log.entries| && n.log.entries[i - 1].term == n.log.term
    ensures var n := run.Node(k, p);
      i <= n.log.commitIndex <==> 2 * |Holders(n, i)| > |run.states[k].nodes.Keys|
  {
    hide Init, Next, Explains, NodeOk, MailOk, AtLeast, MatchTable, Holders, Served, Within, Ordered;
    DutifulAt(run, k, p);
    var n := run.Node(k, p);
    PromptLeads(n);
    HoldersAre(n, i);
    ClusterCount(run, k, p);
  }

  lemma HoldersAre(n: Node, i: Index)
    requires n.role.Leader? && i <= |n.log.entries|
    ensures AtLeast(MatchTable(n), i) == Holders(n, i) || n.id in n.role.progress
  {}

  lemma ClusterCount(run: Run, k: nat, p: NodeID)
    requires run.Valid() && run.At(k, p)
    ensures ClusterSize(run.Node(k, p)) == |run.states[k].nodes.Keys|
  {
    hide Init, Next, Explains, NodeOk, MailOk;
    var h := Explain(run, k);
    ExplainedParts(run, k, h);
    KeysFixed(run, k, h);
    PeersCounted(h, run.states[0].nodes.Keys, run.Node(k, p));
  }

  lemma KeysFixed(run: Run, k: nat, h: History)
    requires run.Shaped() && k < |run.states| && Explains(run, k, h)
    ensures run.states[0].nodes.Keys == run.states[k].nodes.Keys
  {
    hide ClusterOk, Remembered, ArrivalKnown, CommitKnown, RestartKnown, ProposalKnown;
  }

  lemma PeersCounted(h: History, ids: set<NodeID>, n: Node)
    requires NodeOk(h, ids, n)
    ensures ClusterSize(n) == |ids|
  {
    assert n.peers == ids - {n.id} && n.id in ids by { PeersAre(h, ids, n); }
    assert ids == n.peers + {n.id};
  }

  lemma PeersAre(h: History, ids: set<NodeID>, n: Node)
    requires NodeOk(h, ids, n)
    ensures n.peers == ids - {n.id} && n.id in ids
  {}

  /** The nodes that confirmed a read to the leader. */
  function Confirmers(n: Node, readSeq: nat): set<NodeID>
    requires n.role.Leader?
  {
    {n.id} + set q | q in n.role.progress && n.role.progress[q].readSeq >= readSeq
  }

  /**
   * In every state of every run, a leader that has committed an entry of its own term holds back no read that a
   * majority of the cluster, itself included, has confirmed.
   */
  lemma ReadsNotHeldBack(run: Run, k: nat, p: NodeID, r: PendingRead)
    requires run.Valid() && run.At(k, p) && run.Node(k, p).role.Leader? && r in run.Node(k, p).role.queue
    requires run.Node(k, p).log.commitTerm >= run.Node(k, p).log.term
    ensures 2 * |Confirmers(run.Node(k, p), r.readSeq)| <= |run.states[k].nodes.Keys|
  {
    hide Init, Next, Explains, NodeOk, MailOk, AtLeast, ReadTable, Confirmers, Tallied, Ordered;
    DutifulAt(run, k, p);
    var n := run.Node(k, p);
    PromptLeads(n);
    ConfirmersAre(n, r.readSeq);
    ClusterCount(run, k, p);
  }

  lemma ConfirmersAre(n: Node, s: nat)
    requires n.role.Leader? && s <= n.role.readSeq
    ensures AtLeast(ReadTable(n), s) == Confirmers(n, s) || n.id in n.role.progress
  {}

  // ---------------------------------------------------------------- requests

  /** Node `p` does not restart from step `i` on, before step `k`. */
  predicate NoRestart(run: Run, i: nat, k: nat, p: NodeID) {
    forall j :: i <= j < k && j < |run.actions| ==> !(run.actions[j].Restart? && run.actions[j].at == p)
  }

  /** In state `k`, the request is in hand at `p`, or its client has been sent a response. */
  ghost predicate Attended(run: Run, k: nat, p: NodeID, from: NodeID, id: RequestID)
    requires run.At(k, p)
  {
    Held(run.Node(k, p), from, id) || Told(p, run.states[k].net, from, id)
  }

  /**
   * No request is lost: a request that reaches a live node in no later term than the request's is from then on in the
   * node's hands, or its client has been sent a response, as long as the node neither halts nor restarts.
   */
  lemma NoRequestLost(run: Run, i: nat, k: nat, p: NodeID, e: Envelope)
    requires run.Valid() && i < k < |run.states| && run.At(i, p) && run.At(k, p) && Actor(run.actions[i]) == p
    requires Enabled(run.states[i], run.actions[i]) && Delivered(run.states[i], run.actions[i]) == Some(e)
    requires e.message.ClientRequest? && e.term >= run.Node(i, p).log.term && !run.Node(i, p).role.Halted?
    requires NoRestart(run, i, k, p) && !run.Node(k, p).role.Halted?
    ensures Attended(run, k, p, e.from, e.message.id)
  {
    hide Init, Held, Told, Dutiful, Keeps, Effect;
    DutifulAt(run, i, p);
    ActorServes(run, i);
    IdsFixed(run, i, p);
    assert run.Moves(i);
    var o := Effect(run.states[i], run.actions[i]);
    if Told(p, o.sent, e.from, e.message.id) {
      ToldMore(p, o.sent, run.states[i + 1].net, e.from, e.message.id);
    }
    StaysAttended(run, i + 1, k, p, e.from, e.message.id);
  }

  lemma {:induction false} StaysAttended(run: Run, i: nat, k: nat, p: NodeID, from: NodeID, id: RequestID)
    requires run.Valid() && i <= k && run.At(i, p) && run.At(k, p) && NoRestart(run, i, k, p)
    requires run.Node(i, p).role.Halted? || Attended(run, i, p, from, id)
    requires !run.Node(k, p).role.Halted?
    ensures Attended(run, k, p, from, id)
    decreases k - i
  {
    hide Init, Held, Told, Dutiful, Keeps;
    if i < k {
      assert run.Moves(i);
      AttendedNext(run, i, p, from, id);
      StaysAttended(run, i + 1, k, p, from, id);
    }
  }

  lemma AttendedNext(run: Run, i: nat, p: NodeID, from: NodeID, id: RequestID)
    requires run.Valid() && i < |run.actions| && run.At(i, p) && NoRestart(run, i, i + 1, p)
    requires run.Node(i, p).role.Halted? || Attended(run, i, p, from, id)
    ensures run.At(i + 1, p)
    ensures run.Node(i + 1, p).role.Halted? || Attended(run, i + 1, p, from, id)
  {
    hide Init, Held, Told, Dutiful, Effect;
    assert run.Moves(i);
    if !run.Node(i, p).role.Halted? && Told(p, run.states[i].net, from, id) {
      ToldMore(p, run.states[i].net, run.states[i + 1].net, from, id);
    }
    if Actor(run.actions[i]) == p {
      DutifulAt(run, i, p);
      IdsFixed(run, i, p);
      if run.Node(i, p).role.Halted? {
        HaltedStays(run, i, p);
      } else {
        ActorServes(run, i);
        var o := Effect(run.states[i], run.actions[i]);
        if Told(p, o.sent, from, id) { ToldMore(p, o.sent, run.states[i + 1].net, from, id); }
      }
    }
  }

  lemma HaltedStays(run: Run, i: nat, p: NodeID)
    requires run.Valid() && i < |run.actions| && run.At(i, p) && run.Node(i, p).role.Halted?
    requires NoRestart(run, i, i + 1, p)
    ensures run.At(i + 1, p) && run.Node(i + 1, p) == run.Node(i, p)
  {
    assert run.Moves(i);
  }

  // ---------------------------------------------------------------- answers

  /** Node `p` leads the term, or has left it or halted in it. */
  ghost predicate GoesFrom(run: Run, k: nat, p: NodeID, t: Term)
    requires run.At(k, p)
  {
    var n := run.Node(k, p);
    n.role.Halted? || n.log.term > t || (n.role.Leader? && n.log.term == t)
  }

  /** In the term, the write at this index is pending, or answered with all that was applied up to it. */
  ghost predicate WritePends(run: Run, k: nat, p: NodeID, t: Term, i: Index, w: PendingWrite)
    requires run.At(k, p)
  {
    var n := run.Node(k, p);
    n.role.Leader? && n.log.term == t ==>
      || (i in n.role.writes && n.role.writes[i] == w)
      || (i <= |n.applied|
          && Envelope(p, t, w.from, ClientResponse(w.id, WriteAnswer(n.applied[..i]))) in run.states[k].net)
  }

  /** In the term, the read is pending or answered. */
  ghost predicate ReadPends(run: Run, k: nat, p: NodeID, t: Term, r: PendingRead)
    requires run.At(k, p)
  {
    var n := run.Node(k, p);
    n.role.Leader? && n.log.term == t ==> r in n.role.queue || ReadSent(run.states[k].net, p, t, r)
  }

  ghost predicate ReadSent(net: set<Envelope>, p: NodeID, t: Term, r: PendingRead) {
    exists state :: Envelope(p, t, r.from, ClientResponse(r.id, ReadAnswer(r.command, state))) in net
  }

  lemma LeaderEffect(c: Cluster, h: History, ids: set<NodeID>, a: Action)
    requires ClusterOk(c, h, ids) && Enabled(c, a) && !a.Restart? && Dutiful(c.nodes[Actor(a)])
    requires c.nodes[Actor(a)].role.Leader?
    ensures var n, o := c.nodes[Actor(a)], Effect(c, a); Goes(n, o) || o.node.log.term > n.log.term
  {
    hide Step, Tick, Start, HistoryOk, NodeOk, MailOk, Goes, Prompt;
    var n := c.nodes[Actor(a)];
    match a {
      case Deliver(e) =>
        SenderKnown(h, ids, n, e);
        if e.term == n.log.term { ReadKnown(h, ids, n, e); }
        StepGoes(n, e);
      case Client(_, id, request) => StepGoes(n, Submit(n, id, request));
      case Timeout(_) => TickGoes(n);
    }
  }

  lemma LeaderNext(run: Run, k: nat, p: NodeID)
    requires run.Valid() && k < |run.actions| && run.At(k, p) && Actor(run.actions[k]) == p
    requires !run.actions[k].Restart? && run.Node(k, p).role.Leader?
    ensures run.At(k + 1, p) && run.Node(k, p).id == p
    ensures exists o: Out ::
      && o.node == run.Node(k + 1, p) && run.states[k + 1].net == run.states[k].net + o.sent
      && (Goes(run.Node(k, p), o) || o.node.log.term > run.Node(k, p).log.term)
  {
    hide Init, Dutiful, Explains, ClusterOk, Effect, Goes;
    assert run.Moves(k);
    DutifulAt(run, k, p);
    IdsFixed(run, k, p);
    var h := Explain(run, k);
    ExplainedCluster(run, k, h);
    LeaderEffect(run.states[k], h, run.states[0].nodes.Keys, run.actions[k]);
    assert Effect(run.states[k], run.actions[k]).node == run.Node(k + 1, p);
  }

  // ---------------------------------------------------------------- terms

  lemma CrownTerm(n: Node)
    ensures BecomeLeader(n).node.log.term == n.log.term
  {
    hide Propose, MaybeCommit, SendHeartbeats, NewProgress;
    if n.log.term > 0 && n.log.vote == Some(n.id) {
      var start := n.(role := Leader(NewProgress(n), map[], [], 0));
      RaftClients.ProposeOwn(start, None);
      var o1 := Propose(start, None);
      RaftClients.CommitOwn(o1.node);
      RaftClients.BeatsOwn(MaybeCommit(o1.node).node);
    }
  }

  lemma StepTerm(n: Node, e: Envelope)
    ensures Step(n, e).node.log.term >= n.log.term
  {
    hide StepLeader, StepFollower, BecomeLeader;
    if n.role.Halted? || (e.from !in n.peers && e.from != n.id) || e.term < n.log.term {
    } else if e.term > n.log.term {
      EnteredTerm(n, e.term);
      if EnterTerm(n, e.term).node.role.Follower? { FollowerTerm(EnterTerm(n, e.term).node, e); }
    } else {
      match n.role {
        case Follower(_, _) => FollowerTerm(n, e);
        case Candidate(_) =>
          FollowerTerm(n.(role := Follower(Some(e.from), {})), e);
          CrownTerm(n.(role := Candidate(n.role.votes + {e.from})));
        case Leader(_, _, _, _) => RaftClients.LeaderOwn(n, e);
      }
    }
  }

  lemma EnteredTerm(n: Node, term: Term)
    requires term > n.log.term
    ensures var m := EnterTerm(n, term).node; m.log.term == term && m.role.Follower?
  {}

  lemma StartTerm(n: Node)
    requires n.role == Follower(None, {})
    ensures Start(n.id, n.peers, n.maxAppend, n.log, n.applied).node.log.term >= n.log.term
  {
    hide Start, BecomeLeader;
    RaftStep.StartMeans(n);
    CrownTerm(BecomeCandidate(MaybeApply(n)).node);
  }

  lemma EffectTerm(c: Cluster, a: Action)
    requires Enabled(c, a)
    ensures Effect(c, a).node.log.term >= c.nodes[Actor(a)].log.term
  {
    hide Step, Start;
    var n := c.nodes[Actor(a)];
    match a {
      case Deliver(e) => StepTerm(n, e);
      case Client(_, id, request) => StepTerm(n, Submit(n, id, request));
      case Timeout(_) =>
      case Restart(_, commitIndex, appliedIndex) => StartTerm(Durable(n, commitIndex, appliedIndex));
    }
  }

  lemma TermNext(run: Run, k: nat, p: NodeID)
    requires run.Valid() && k < |run.actions| && run.At(k, p)
    ensures run.At(k + 1, p) && run.Node(k, p).log.term <= run.Node(k + 1, p).log.term
  {
    hide Init, Effect;
    assert run.Moves(k);
    if Actor(run.actions[k]) == p { EffectTerm(run.states[k], run.actions[k]); }
  }

  /** A node's term never falls, restarts included. */
  lemma {:induction false} TermsRise(run: Run, i: nat, k: nat, p: NodeID)
    requires run.Valid() && i <= k < |run.states| && run.At(i, p)
    ensures run.At(k, p) && run.Node(i, p).log.term <= run.Node(k, p).log.term
    decreases k
  {
    hide Init, Next;
    if i < k {
      TermsRise(run, i, k - 1, p);
      TermNext(run, k - 1, p);
    }
  }

  // ---------------------------------------------------------------- what the answers are

  lemma PendsNext(run: Run, k: nat, p: NodeID, t: Term, i: Index, w: PendingWrite, r: PendingRead)
    requires run.Valid() && k < |run.actions| && run.At(k, p) && NoRestart(run, k, k + 1, p) && GoesFrom(run, k, p, t)
    ensures run.At(k + 1, p) && GoesFrom(run, k + 1, p, t)
    ensures WritePends(run, k, p, t, i, w) ==> WritePends(run, k + 1, p, t, i, w)
    ensures ReadPends(run, k, p, t, r) ==> ReadPends(run, k + 1, p, t, r)
  {
    hide Init, Effect, Dutiful, Explains;
    assert run.Moves(k);
    TermNext(run, k, p);
    var n := run.Node(k, p);
    if Actor(run.actions[k]) == p {
      if n.role.Halted? {
        HaltedStays(run, k, p);
      } else if n.role.Leader? && n.log.term == t {
        LeaderNext(run, k, p);
        var o: Out :| o.node == run.Node(k + 1, p) && run.states[k + 1].net == run.states[k].net + o.sent
                 && (Goes(n, o) || o.node.log.term > n.log.term);
        if WritePends(run, k, p, t, i, w) { WriteGoes(run, k, p, o, i, w); }
        if ReadPends(run, k, p, t, r) { ReadGoes(run, k, p, o, r); }
      }
    }
  }

  lemma WriteGoes(run: Run, k: nat, p: NodeID, o: Out, i: Index, w: PendingWrite)
    requires run.At(k, p) && run.At(k + 1, p) && run.Node(k, p).id == p && o.node == run.Node(k + 1, p)
    requires run.Node(k, p).role.Leader? && run.states[k + 1].net == run.states[k].net + o.sent
    requires Goes(run.Node(k, p), o) || o.node.log.term > run.Node(k, p).log.term
    requires WritePends(run, k, p, run.Node(k, p).log.term, i, w)
    ensures WritePends(run, k + 1, p, run.Node(k, p).log.term, i, w)
  {
    hide KeepsReads;
    var n := run.Node(k, p);
    if o.node.role.Leader? && o.node.log.term == n.log.term && i <= |n.applied| {
      assert o.node.applied[..i] == n.applied[..i];
    }
  }

  lemma ReadGoes(run: Run, k: nat, p: NodeID, o: Out, r: PendingRead)
    requires run.At(k, p) && run.At(k + 1, p) && run.Node(k, p).id == p && o.node == run.Node(k + 1, p)
    requires run.Node(k, p).role.Leader? && run.states[k + 1].net == run.states[k].net + o.sent
    requires Goes(run.Node(k, p), o) || o.node.log.term > run.Node(k, p).log.term
    requires ReadPends(run, k, p, run.Node(k, p).log.term, r)
    ensures ReadPends(run, k + 1, p, run.Node(k, p).log.term, r)
  {
    hide KeepsWrites;
    var n := run.Node(k, p);
    if o.node.role.Leader? && o.node.log.term == n.log.term {
      if ReadSent(run.states[k].net, p, n.log.term, r) {
        SentMore(run.states[k].net, run.states[k + 1].net, p, n.log.term, r);
      } else if r !in o.node.role.queue {
        assert ReadSent(o.sent, p, n.log.term, r) by {
          var state :| Mail(n, r.from, ClientResponse(r.id, ReadAnswer(r.command, state))) in o.sent;
        }
        SentMore(o.sent, run.states[k + 1].net, p, n.log.term, r);
      }
    }
  }

  lemma SentMore(sent: set<Envelope>, net: set<Envelope>, p: NodeID, t: Term, r: PendingRead)
    requires ReadSent(sent, p, t, r) && sent <= net
    ensures ReadSent(net, p, t, r)
  {}

  lemma {:induction false} PendsUntil(run: Run, i: nat, k: nat, p: NodeID, t: Term, x: Index, w: PendingWrite,
    r: PendingRead)
    requires run.Valid() && i <= k < |run.states| && run.At(i, p) && NoRestart(run, i, k, p) && GoesFrom(run, i, p, t)
    ensures run.At(k, p) && GoesFrom(run, k, p, t)
    ensures WritePends(run, i, p, t, x, w) ==> WritePends(run, k, p, t, x, w)
    ensures ReadPends(run, i, p, t, r) ==> ReadPends(run, k, p, t, r)
    decreases k
  {
    hide Init, Next, GoesFrom, WritePends, ReadPends;
    if i < k {
      PendsUntil(run, i, k - 1, p, t, x, w, r);
      PendsNext(run, k - 1, p, t, x, w, r);
    }
  }

  /**
   * As long as a leader leads its term, each of its pending writes is still pending, or answered: with the state that
   * the node has applied up to the write's index, as soon as it has applied it, and never before.
   */
  lemma WriteAnswered(run: Run, i: nat, k: nat, p: NodeID, x: Index)
    requires run.Valid() && i <= k < |run.states| && run.At(i, p) && run.At(k, p) && NoRestart(run, i, k, p)
    requires run.Node(i, p).role.Leader? && x in run.Node(i, p).role.writes
    requires run.Node(k, p).role.Leader? && run.Node(k, p).log.term == run.Node(i, p).log.term
    ensures var w, n := run.Node(i, p).role.writes[x], run.Node(k, p);
      if |n.applied| < x then x in n.role.writes && n.role.writes[x] == w
      else
        && x !in n.role.writes
        && Envelope(p, n.log.term, w.from, ClientResponse(w.id, WriteAnswer(n.applied[..x]))) in run.states[k].net
  {
    hide Init, Next, Tallied, Served, Ordered;
    PendsUntil(run, i, k, p, run.Node(i, p).log.term, x, run.Node(i, p).role.writes[x], PendingRead(0, 0, 0, []));
    DutifulAt(run, k, p);
  }

  /** As long as a leader leads its term, each of its pending reads is still pending, or answered. */
  lemma ReadAnswered(run: Run, i: nat, k: nat, p: NodeID, r: PendingRead)
    requires run.Valid() && i <= k < |run.states| && run.At(i, p) && run.At(k, p) && NoRestart(run, i, k, p)
    requires run.Node(i, p).role.Leader? && r in run.Node(i, p).role.queue
    requires run.Node(k, p).role.Leader? && run.Node(k, p).log.term == run.Node(i, p).log.term
    ensures r in run.Node(k, p).role.queue || ReadSent(run.states[k].net, p, run.Node(k, p).log.term, r)
  {
    hide Init, Next;
    PendsUntil(run, i, k, p, run.Node(i, p).log.term, 0, PendingWrite(0, 0), r);
  }
}
