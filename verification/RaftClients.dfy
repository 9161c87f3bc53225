/** What clients are told, over every run: who asked, who answered, and what a follower passes on. */
module RaftClients {
  import opened Common
  import opened RaftLog
  import opened RaftNode
  import opened RaftHistory
  import opened RaftInvariant
  import opened RaftCluster

  // ---------------------------------------------------------------- what a node sends

  /** The node keeps its name and term, sends under them, forwards no client request and tells no status. */
  ghost predicate Own(n: Node, o: Out) {
    && o.node.id == n.id && o.node.log.term == n.log.term
    && forall e :: e in o.sent ==>
         && e.from == n.id && e.term == n.log.term && !e.message.ClientRequest?
         && (e.message.ClientResponse? ==> !e.message.response.StatusAnswer?)
  }

  /** A leader's status: where it and its peers stand, as far as it knows. */
  predicate StatusOf(n: Node, r: Response) {
    && n.role.Leader? && r.StatusAnswer?
    && r.commitIndex == n.log.commitIndex && r.appliedIndex == |n.applied|
    && r.matches.Keys == n.role.progress.Keys + {n.id} && r.matches[n.id] == |n.log.entries|
    && forall q :: q in n.role.progress && q != n.id ==> r.matches[q] == n.role.progress[q].matchIndex
  }

  /** The same for a whole step of a leader, which tells its status as it is. */
  ghost predicate Sends(n: Node, o: Out) {
    && o.node.id == n.id && o.node.log.term == n.log.term
    && forall e :: e in o.sent ==>
         && e.from == n.id && e.term == n.log.term && !e.message.ClientRequest?
         && (e.message.ClientResponse? && e.message.response.StatusAnswer? ==> StatusOf(n, e.message.response))
  }

  lemma OwnJoin(n: Node, a: Out, b: Out)
    requires Own(n, a) && Own(a.node, b)
    ensures Own(n, Join(a, b))
  {}

  lemma ReadOwn(n: Node)
    ensures Own(n, MaybeRead(n))
  {
    hide QuorumValue, ReadyReads;
  }

  lemma ApplyOwn(n: Node)
    requires n.role.Leader?
    ensures Own(n, ApplyAndAnswer(n)) && ApplyAndAnswer(n).node.role.Leader?
  {}

  lemma CommitOwn(n: Node)
    ensures Own(n, MaybeCommit(n))
  {
    hide QuorumValue, ApplyAndAnswer, MaybeRead;
    if n.role.Leader? && TableFits(n) {
      TableSize(n);
      var index := QuorumValue(MatchTable(n), QuorumSize(n));
      if n.log.commitIndex < index <= |n.log.entries| {
        var committed := n.(log := n.log.(commitIndex := index, commitTerm := n.log.entries[index - 1].term));
        ApplyOwn(committed);
        ReadOwn(ApplyAndAnswer(committed).node);
      }
    }
  }

  lemma ProposeOwn(n: Node, command: Option<Command>)
    requires n.role.Leader?
    ensures Own(n, Propose(n, command)) && forall e :: e in Propose(n, command).sent ==> e.message.Append?
    ensures Propose(n, command).node.role.Leader? ==>
      && Propose(n, command).node.role.writes == n.role.writes && Propose(n, command).node.role.queue == n.role.queue
  {
    hide PlanAppend, ProgressValid;
    PlansAppend();
  }

  lemma PlansAppend()
    ensures forall entries, p, probe, m :: ProgressValid(p, |entries|) ==>
      var message := PlanAppend(entries, p, probe, m).message; message.Some? ==> message.value.Append?
  {}

  lemma SendOwn(n: Node, peer: NodeID, probe: bool)
    requires n.role.Leader?
    ensures Own(n, SendAppend(n, peer, probe))
  {}

  lemma ConfirmsOwn(n: Node, from: NodeID, matchIndex: Index, readSeq: nat)
    ensures Own(n, ConfirmMatch(n, from, matchIndex)) && (n.role.Leader? ==> Own(n, ConfirmRead(n, from, readSeq)))
  {
    hide MaybeRead, MaybeCommit;
    if n.role.Leader? && from in n.role.progress {
      var p := n.role.progress[from];
      ReadOwn(WithProgress(n, from, AdvanceRead(p, readSeq)));
      CommitOwn(WithProgress(n, from, AdvanceMatch(p, matchIndex)));
    }
  }

  lemma ProbeOwn(n: Node, from: NodeID, nextIndex: Index)
    ensures Own(n, Probe(n, from, nextIndex))
  {
    hide SendAppend;
    if n.role.Leader? && from in n.role.progress {
      SendOwn(WithProgress(n, from, RegressNext(n.role.progress[from], nextIndex)), from, true);
    }
  }

  lemma ResponsesOwn(n: Node, from: NodeID, matchIndex: Index, x: nat)
    requires n.role.Leader?
    ensures Own(n, OnHeartbeatResponse(n, from, matchIndex, x)) && Own(n, OnAppendResponse(n, from, matchIndex, x))
  {
    hide ConfirmRead, ConfirmMatch, Probe, SendAppend;
    ConfirmsOwn(n, from, matchIndex, x);
    var o1 := ConfirmRead(n, from, x);
    ProbeOwn(o1.node, from, |n.log.entries|);
    var o2 := if matchIndex == 0 then Probe(o1.node, from, |n.log.entries|) else Quiet(o1.node);
    OwnJoin(n, o1, o2);
    ConfirmsOwn(o2.node, from, matchIndex, x);
    OwnJoin(n, Join(o1, o2), ConfirmMatch(o2.node, from, matchIndex));
    var c := ConfirmMatch(n, from, matchIndex);
    if c.node.role.Leader? { SendOwn(c.node, from, false); }
    ProbeOwn(n, from, x);
  }

  lemma RequestsOwn(n: Node, from: NodeID, id: RequestID, command: Command)
    requires n.role.Leader?
    ensures Own(n, OnWrite(n, from, id, command)) && Own(n, OnRead(n, from, id, command))
  {
    hide Propose, MaybeCommit, MaybeRead;
    ProposeOwn(n, Some(command));
    var o1 := Propose(n, Some(command));
    if o1.node.role.Leader? {
      var n1 := o1.node.(role := o1.node.role.(
        writes := o1.node.role.writes[|o1.node.log.entries| := PendingWrite(from, id)]));
      CommitOwn(n1);
    }
    ReadOwn(AcceptRead(n, from, id, command).node);
  }

  lemma LeaderOwn(n: Node, e: Envelope)
    requires n.role.Leader?
    ensures Sends(n, StepLeader(n, e))
  {
    hide OnHeartbeatResponse, OnAppendResponse, ConfirmRead, OnWrite, OnRead;
    match e.message {
      case HeartbeatResponse(matchIndex, readSeq) => ResponsesOwn(n, e.from, matchIndex, readSeq);
      case AppendResponse(matchIndex, rejectIndex) => ResponsesOwn(n, e.from, matchIndex, rejectIndex);
      case ReadResponse(readSeq) => ConfirmsOwn(n, e.from, 0, readSeq);
      case ClientRequest(id, request) =>
        if !request.StatusRequest? { RequestsOwn(n, e.from, id, request.command); }
      case _ =>
    }
  }

  /** No client is told anything but an abort. */
  ghost predicate NoAnswers(n: Node, o: Out) {
    && o.node.id == n.id
    && forall e :: e in o.sent ==>
         && e.from == n.id && !e.message.ClientRequest?
         && (e.message.ClientResponse? ==> e.message.response == Abort)
  }

  /** A new leader has no requests to answer yet. */
  lemma CrownedNoAnswers(n: Node)
    ensures NoAnswers(n, BecomeLeader(n))
  {
    if n.log.term > 0 && n.log.vote == Some(n.id) {
      hide Propose, MaybeCommit, SendHeartbeats, Own, NoAnswers, NewProgress;
      var start := n.(role := Leader(NewProgress(n), map[], [], 0));
      ProposeOwn(start, None);
      var o1 := Propose(start, None);
      CommitOwn(o1.node);
      NothingPending(o1.node);
      BeatsOwn(MaybeCommit(o1.node).node);
      QuietParts(start, o1, MaybeCommit(o1.node), SendHeartbeats(MaybeCommit(o1.node).node));
      assert NoAnswers(n, BecomeLeader(n)) by { SameName(start, n, BecomeLeader(n)); }
    } else {
      assert NoAnswers(n, BecomeLeader(n));
    }
  }

  lemma SameName(n: Node, m: Node, o: Out)
    requires NoAnswers(n, o) && n.id == m.id
    ensures NoAnswers(m, o)
  {}

  lemma QuietParts(n: Node, a: Out, b: Out, c: Out)
    requires Own(n, a) && Own(a.node, b) && Own(b.node, c) && forall e :: e !in b.sent
    requires (forall e :: e in a.sent ==> e.message.Append?) && (forall e :: e in c.sent ==> e.message.Heartbeat?)
    ensures NoAnswers(n, Join(Join(a, b), c))
  {}

  lemma BeatsOwn(n: Node)
    ensures Own(n, SendHeartbeats(n)) && forall e :: e in SendHeartbeats(n).sent ==> e.message.Heartbeat?
  {}

  lemma NothingPending(n: Node)
    requires n.role.Leader? ==> n.role.writes == map[] && n.role.queue == []
    ensures forall e :: e !in MaybeCommit(n).sent
  {
    hide MaybeCommit, MaybeRead, ApplyAndAnswer, QuorumValue, MatchTable, QuorumSize;
    if n.role.Leader? && !TableFits(n) {
      Unfit(n);
    } else {
      CommitMeans(n);
      if n.role.Leader? && n.log.commitIndex < QuorumValue(MatchTable(n), QuorumSize(n)) <= |n.log.entries| {
        var index := QuorumValue(MatchTable(n), QuorumSize(n));
        var committed := n.(log := n.log.(commitIndex := index, commitTerm := n.log.entries[index - 1].term));
        AppliedNothing(committed);
        ReadsMean(ApplyAndAnswer(committed).node);
      }
    }
  }

  lemma Unfit(n: Node)
    requires n.role.Leader? && !TableFits(n)
    ensures MaybeCommit(n) == Halt(n, UnknownNode)
  {}

  lemma AppliedNothing(n: Node)
    requires n.role.Leader? && n.role.writes == map[]
    ensures var o := ApplyAndAnswer(n);
      && o.sent == {} && o.node.role.Leader? && o.node.role.queue == n.role.queue
      && o.node.role.progress == n.role.progress && o.node.id == n.id && o.node.peers == n.peers
  {
    assert forall e :: e !in ApplyAndAnswer(n).sent;
  }

  lemma ElectionNoAnswers(n: Node)
    ensures NoAnswers(n, HoldElection(n)) && (n.role.Follower? ==> NoAnswers(n, BecomeCandidate(n)))
  {}

  lemma EnterNoAnswers(n: Node, term: Term)
    ensures NoAnswers(n, EnterTerm(n, term))
    ensures EnterTerm(n, term).node.log.term == term || EnterTerm(n, term).node.role.Halted?
  {}

  /** A follower forwards what it was asked, and answers, apart from aborts, what it was told. */
  ghost predicate Relays(n: Node, e: Envelope, o: Out) {
    && o.node.id == n.id
    && forall d :: d in o.sent ==>
         && d.from == n.id
         && (d.message.ClientRequest? ==> e.from == n.id && d.message == e.message)
         && (d.message.ClientResponse? && d.message.response != Abort ==>
               d.message == e.message && d.term == n.log.term && d.to == n.id)
  }

  lemma FollowerRelays(n: Node, e: Envelope)
    requires n.role.Follower?
    ensures Relays(n, e, StepFollower(n, e))
  {
    hide Splice, Commit, Has;
  }

  lemma CandidateRelays(n: Node, e: Envelope)
    requires n.role.Candidate?
    ensures Relays(n, e, StepCandidate(n, e))
  {
    hide BecomeLeader, StepFollower;
    FollowerRelays(n.(role := Follower(Some(e.from), {})), e);
    if e.message.CampaignResponse? { CrownedNoAnswers(n.(role := Candidate(n.role.votes + {e.from}))); }
  }

  /** What one step tells clients and leaders. */
  ghost predicate Told(c: Cluster, a: Action, e: Envelope) {
    && e.from == Actor(a)
    && (e.message.ClientRequest? ==> a.Client? && e.message == ClientRequest(a.id, a.request))
    && (e.message.ClientResponse? && e.message.response != Abort ==>
          || (LedBy(c.nodes, Actor(a), e.term)
              && (e.message.response.StatusAnswer? ==> StatusOf(c.nodes[Actor(a)], e.message.response)))
          || (a.Deliver? && a.e.message == e.message && a.e.term == e.term && a.e.to == e.to))
  }

  lemma StepTells(n: Node, e: Envelope, d: Envelope)
    requires d in Step(n, e).sent
    ensures d.from == n.id
    ensures d.message.ClientRequest? ==> e.from == n.id && d.message == e.message
    ensures d.message.ClientResponse? && d.message.response != Abort ==>
      || (n.role.Leader? && n.log.term == d.term
          && (d.message.response.StatusAnswer? ==> StatusOf(n, d.message.response)))
      || (d.message == e.message && d.term == e.term && d.to == n.id)
  {
    hide StepFollower, StepCandidate, StepLeader, EnterTerm;
    EnterNoAnswers(n, e.term);
    var m := if e.term > n.log.term then EnterTerm(n, e.term).node else n;
    EnteredRole(n, e.term);
    match m.role {
      case Follower(_, _) => FollowerRelays(m, e);
      case Candidate(_) => CandidateRelays(m, e);
      case Leader(_, _, _, _) => LeaderOwn(m, e);
      case Halted(_) =>
    }
  }

  lemma EnteredRole(n: Node, term: Term)
    ensures var m := EnterTerm(n, term).node; m.role.Halted? || (m.role.Follower? && m.log.term == term)
  {}

  lemma EffectTells(c: Cluster, a: Action, d: Envelope)
    requires Enabled(c, a) && c.nodes[Actor(a)].id == Actor(a) && d in Effect(c, a).sent
    ensures Told(c, a, d)
  {
    hide Step, Tick, Start;
    var n := c.nodes[Actor(a)];
    match a {
      case Deliver(e) => StepTells(n, e, d);
      case Client(_, id, request) => StepTells(n, Submit(n, id, request), d);
      case Timeout(_) => TickTells(n, d);
      case Restart(_, commitIndex, appliedIndex) => StartTells(Durable(n, commitIndex, appliedIndex), d);
    }
  }

  lemma TickTells(n: Node, d: Envelope)
    requires d in Tick(n).sent
    ensures d.from == n.id && !d.message.ClientRequest? && (d.message.ClientResponse? ==> d.message.response == Abort)
  {
    hide BecomeCandidate, HoldElection;
    ElectionNoAnswers(n);
  }

  lemma StartTells(n: Node, d: Envelope)
    requires n.role == Follower(None, {}) && d in Start(n.id, n.peers, n.maxAppend, n.log, n.applied).sent
    ensures d.from == n.id && !d.message.ClientRequest? && (d.message.ClientResponse? ==> d.message.response == Abort)
  {
    hide BecomeCandidate, BecomeLeader;
    var m := MaybeApply(n);
    ElectionNoAnswers(m);
    CrownedNoAnswers(BecomeCandidate(m).node);
  }

  // ---------------------------------------------------------------- over runs

  /** A client at node `at` asked for this before step `k`. */
  ghost predicate AskedBefore(run: Run, k: nat, at: NodeID, id: RequestID, request: Request) {
    exists j: nat :: j < k && j < |run.actions| && run.actions[j] == Client(at, id, request)
  }

  /** Node `l` led the term at step `j`, and sent this there. */
  ghost predicate SentByLeader(run: Run, j: nat, l: NodeID, term: Term, to: NodeID, m: Message)
    requires run.Shaped() && j < |run.actions|
  {
    && Actor(run.actions[j]) == l && LedBy(run.states[j].nodes, l, term)
    && Envelope(l, term, to, m) in run.states[j + 1].net
  }

  /** Every client request in the network was asked by a client of the node that forwarded it. */
  lemma {:induction false} RequestsAsked(run: Run, k: nat, e: Envelope)
    requires run.Valid() && k < |run.states| && e in run.states[k].net && e.message.ClientRequest?
    ensures AskedBefore(run, k, e.from, e.message.id, e.message.request)
  {
    hide Init, Effect;
    if k == 0 {
      NothingSent(run);
    } else {
      assert run.Moves(k - 1);
      if e in run.states[k - 1].net {
        RequestsAsked(run, k - 1, e);
      } else {
        IdsFixed(run, k - 1, Actor(run.actions[k - 1]));
        EffectTells(run.states[k - 1], run.actions[k - 1], e);
      }
    }
  }

  lemma NothingSent(run: Run)
    requires run.Valid()
    ensures run.states[0].net == {}
  {
    hide Next;
  }

  /**
   * Nobody makes up answers: every response other than an abort, whoever passes it on, was sent under this id to this
   * node by the leader of the term.
   */
  lemma {:induction false} AnswersFromLeader(run: Run, k: nat, e: Envelope)
    requires run.Valid() && k < |run.states| && e in run.states[k].net
    requires e.message.ClientResponse? && e.message.response != Abort
    ensures exists j: nat, l: NodeID :: j < k && SentByLeader(run, j, l, e.term, e.to, e.message)
  {
    hide Init, Effect;
    if k == 0 {
      NothingSent(run);
    } else {
      assert run.Moves(k - 1);
      var a := run.actions[k - 1];
      if e in run.states[k - 1].net {
        AnswersFromLeader(run, k - 1, e);
      } else {
        IdsFixed(run, k - 1, Actor(a));
        EffectTells(run.states[k - 1], a, e);
        if LedBy(run.states[k - 1].nodes, Actor(a), e.term) {
          assert SentByLeader(run, k - 1, Actor(a), e.term, e.to, e.message);
        } else {
          AnswersFromLeader(run, k - 1, a.e);
        }
      }
    }
  }

  /** At step `j`, node `l` led the term, and this was its status. */
  ghost predicate StatusAt(run: Run, j: nat, l: NodeID, term: Term, r: Response) {
    j < |run.states| && LedBy(run.states[j].nodes, l, term) && StatusOf(run.states[j].nodes[l], r)
  }

  /** Every status a client is told was the status of the leader of the answer's term: its own log, what it knows of its
   *  peers' logs, and what it has committed and applied. */
  lemma {:induction false} StatusIsLeaders(run: Run, k: nat, e: Envelope)
    requires run.Valid() && k < |run.states| && e in run.states[k].net
    requires e.message.ClientResponse? && e.message.response.StatusAnswer?
    ensures exists j: nat, l: NodeID :: j < k && StatusAt(run, j, l, e.term, e.message.response)
  {
    hide Init, Effect, StatusOf;
    if k == 0 {
      NothingSent(run);
    } else {
      assert run.Moves(k - 1);
      var a := run.actions[k - 1];
      if e in run.states[k - 1].net {
        StatusIsLeaders(run, k - 1, e);
      } else {
        IdsFixed(run, k - 1, Actor(a));
        EffectTells(run.states[k - 1], a, e);
        if a.Deliver? && a.e.message == e.message && a.e.term == e.term {
          StatusIsLeaders(run, k - 1, a.e);
        } else {
          assert StatusAt(run, k - 1, Actor(a), e.term, e.message.response);
        }
      }
    }
  }

  /**
   * A follower passes on, unchanged, every answer to a request it still holds as forwarded, and then no longer holds
   * it; answers to others it drops.
   */
  lemma AnswersPassedOn(run: Run, i: nat, e: Envelope)
    requires run.Valid() && i < |run.actions| && run.actions[i] == Deliver(e) && e.message.ClientResponse?
    requires run.At(i, e.to) && run.Node(i, e.to).role.Follower? && run.Node(i, e.to).role.leader.Some?
    requires e.term == run.Node(i, e.to).log.term
    ensures run.At(i + 1, e.to)
    ensures var n, n' := run.Node(i, e.to), run.Node(i + 1, e.to);
      if e.message.id in n.role.forwarded then
        && Envelope(e.to, e.term, e.to, e.message) in run.states[i + 1].net
        && n' == n.(role := n.role.(forwarded := n.role.forwarded - {e.message.id}))
        && run.states[i + 1].net == run.states[i].net + {Envelope(e.to, e.term, e.to, e.message)}
      else n' == n && run.states[i + 1].net == run.states[i].net
  {
    hide Init, NodeOk, MailOk, Explains;
    var h := Explain(run, i);
    ExplainedParts(run, i, h);
    assert run.Moves(i);
    hide Step;
    RelayedNow(h, run.states[0].nodes.Keys, run.Node(i, e.to), e);
  }

  lemma RelayedNow(h: History, ids: set<NodeID>, n: Node, e: Envelope)
    requires NodeOk(h, ids, n) && MailOk(h, ids, e) && e.to == n.id && e.from != e.to && e.message.ClientResponse?
    requires n.role.Follower? && n.role.leader.Some? && e.term == n.log.term
    ensures Step(n, e) ==
      if e.message.id in n.role.forwarded
      then Out(n.(role := n.role.(forwarded := n.role.forwarded - {e.message.id})), {Mail(n, n.id, e.message)})
      else Quiet(n)
  {
    hide DurableOk, AnswerOk, WrittenOk;
    assert e.from in n.peers by { PeerOf(h, ids, n, e.from); }
  }

  lemma PeerOf(h: History, ids: set<NodeID>, n: Node, p: NodeID)
    requires NodeOk(h, ids, n) && p in ids && p != n.id
    ensures p in n.peers
  {}

  /** A request that reaches a node at step `i` was asked there, or by a client of the node that forwarded it. */
  lemma ArrivedAsked(run: Run, i: nat, e: Envelope)
    requires run.Valid() && i < |run.actions| && Enabled(run.states[i], run.actions[i])
    requires Delivered(run.states[i], run.actions[i]) == Some(e) && e.message.ClientRequest?
    ensures AskedBefore(run, i + 1, e.from, e.message.id, e.message.request)
  {
    hide Init, Next;
    match run.actions[i] {
      case Deliver(d) => RequestsAsked(run, i, d);
      case Client(at, id, request) =>
        IdsFixed(run, i, at);
        assert run.actions[i] == Client(e.from, e.message.id, e.message.request);
      case _ =>
    }
  }

  /**
   * Writes, end to end: a node that is told that its write succeeded, by the leader or passing it on to its own
   * client, was asked for the write by a client under that id, with the command that now ends the committed state.
   */
  lemma WriteAnswersClient(run: Run, k: nat, e: Envelope)
    requires run.Valid() && k < |run.states| && e in run.states[k].net
    requires e.message.ClientResponse? && e.message.response.WriteAnswer?
    ensures var state := e.message.response.state;
      && state != []
      && KnownCommitted(run, k, state)
      && exists c: Command ::
           && AskedBefore(run, k, e.to, e.message.id, WriteRequest(c))
           && state[|state| - 1] == Entry(|state|, e.term, Some(c))
  {
    hide Init, Next, KnownCommitted, Enabled, Delivered;
    WritesAreCommitted(run, k, e);
    var state := e.message.response.state;
    var i: nat, c: Command :| i < k && WriteArrives(run, i, e.term, e.to, e.message.id, c)
                              && state[|state| - 1] == Entry(|state|, e.term, Some(c));
    ArrivedAsked(run, i, Delivered(run.states[i], run.actions[i]).value);
    AskedLater(run, i + 1, k, e.to, e.message.id, WriteRequest(c));
  }

  lemma AskedLater(run: Run, i: nat, k: nat, at: NodeID, id: RequestID, request: Request)
    requires AskedBefore(run, i, at, id, request) && i <= k
    ensures AskedBefore(run, k, at, id, request)
  {}

  /** Reads, end to end: an answered read was asked by a client under that id, with that command. */
  lemma ReadAnswersClient(run: Run, k: nat, e: Envelope)
    requires run.Valid() && k < |run.states| && e in run.states[k].net
    requires e.message.ClientResponse? && e.message.response.ReadAnswer?
    ensures AskedBefore(run, k, e.to, e.message.id, ReadRequest(e.message.response.command))
  {
    hide Init, Next, KnownCommitted, HoldsAllCommitted, Enabled, Delivered;
    LinearizableReads(run, k, e);
    var r := e.message.response;
    var i: nat :| i < k && ReadArrives(run, i, e.term, e.to, e.message.id, r.command)
                     && HoldsAllCommitted(run, i, r.state);
    ArrivedAsked(run, i, Delivered(run.states[i], run.actions[i]).value);
    AskedLater(run, i + 1, k, e.to, e.message.id, ReadRequest(r.command));
  }
}
