/**
 * The node of src/raft/node.rs as an object: `step` and `tick` change its log, role, state machine and
 * outbox in place. Every method is proved to do what the transition functions of RaftNode do, so what is
 * proved of runs of those functions holds for this object.
 */
module RaftMachine {
  import opened Common
  import RaftLog
  import opened RaftNode
  import opened RaftQuorum
  import Store = RaftLogStore

  type NodeID = RaftLog.NodeID
  type Index = RaftLog.Index
  type Term = RaftLog.Term
  type Entry = RaftLog.Entry
  type Command = RaftLog.Command

  /** A leader tracks exactly its peers, and their progress stays within its log. */
  ghost predicate LeaderOk(n: Node) {
    n.role.Leader? ==>
      && TableFits(n)
      && forall p :: p in n.role.progress ==> ProgressValid(n.role.progress[p], |n.log.entries|)
  }

  lemma FitsTable(n: Node)
    requires LeaderOk(n)
    ensures n.role.Leader? ==> TableFits(n)
  {}

  /** The messages sent so far and those of two steps in a row. */
  lemma Chained(before: set<Envelope>, a: Out, b: Out)
    ensures before + Join(a, b).sent == (before + a.sent) + b.sent
    ensures before + Quiet(a.node).sent == before
  {
  }

  class RawNode {
    const id: NodeID
    const peers: set<NodeID>
    const maxAppend: nat
    const log: Store.LogStore
    var applied: seq<Entry>
    var role: Role
    var sent: set<Envelope>

    /** The node as a value. */
    ghost function Value(): Node
      reads this, log
    {
      Node(id, peers, maxAppend, log.contents, applied, role)
    }

    ghost predicate Valid()
      reads this, log
    {
      log.Valid() && LeaderOk(Value())
    }

    /** The node has become `o.node`, and sent `o.sent` since it had sent `before`. */
    ghost predicate Became(o: Out, before: set<Envelope>)
      reads this, log
    {
      Valid() && Value() == o.node && sent == before + o.sent
    }

    /** `RawNode::new`: a leaderless follower on a stored log, with pending entries applied. */
    constructor (id: NodeID, peers: set<NodeID>, maxAppend: nat, log: Store.LogStore, applied: seq<Entry>)
      requires id !in peers && log.Valid()
      ensures this.id == id && this.peers == peers && this.maxAppend == maxAppend && this.log == log
      ensures Became(Quiet(MaybeApply(Node(id, peers, maxAppend, log.contents, applied, Follower(None, {})))), {})
    {
      this.id, this.peers, this.maxAppend, this.log := id, peers, maxAppend, log;
      this.applied, role, sent := applied, Follower(None, {}), {};
      new;
      hide Store.LogStore.Valid, MaybeApply;
      ApplyPending();
    }

    /** The rest of `Node::new`: a node without peers elects itself. */
    method ElectIfAlone()
      requires Valid() && id !in peers
      modifies this, log
      ensures var n := old(Value());
        Became(if ClusterSize(n) == 1 then Join(BecomeCandidate(n), BecomeLeader(BecomeCandidate(n).node))
          else Quiet(n), old(sent))
    {
      hide Store.LogStore.Valid, LeaderOk, BecomeCandidate, BecomeLeader;
      if |peers| + 1 == 1 {
        ghost var o := BecomeCandidate(Value());
        IntoCandidate();
        Chained(old(sent), o, BecomeLeader(Value()));
        IntoLeader();
      }
    }

    // -------------------------------------------------------------- all roles

    method Panic(p: RaftLog.Panic)
      requires Valid()
      modifies this`role
      ensures Became(Halt(old(Value()), p), old(sent))
    {
      hide Store.LogStore.Valid, Store.WellFormed, RaftLog.LastTerm;
      log.Cached();
      role := Halted(p);
    }

    method Send(to: NodeID, m: Message)
      requires Valid()
      modifies this`sent
      ensures Valid() && sent == old(sent) + {Mail(Value(), to, m)}
    {
      hide Store.LogStore.Valid, Store.WellFormed, RaftLog.LastTerm;
      log.Cached();
      sent := sent + {Envelope(id, log.term, to, m)};
    }

    method SendAll(m: Message)
      requires Valid()
      modifies this`sent
      ensures Valid() && sent == old(sent) + Broadcast(Value(), m)
    {
      hide Store.LogStore.Valid, Store.WellFormed, RaftLog.LastTerm;
      log.Cached();
      var todo := peers;
      while todo != {}
        invariant todo <= peers && Valid()
        invariant sent == old(sent) + set p | p in peers - todo :: Mail(Value(), p, m)
        decreases |todo|
      {
        var p :| p in todo;
        Send(p, m);
        todo := todo - {p};
      }
      assert peers - todo == peers;
    }

    method ApplyPending()
      requires Valid()
      modifies this`applied
      ensures Valid() && Value() == MaybeApply(old(Value()))
    {
      hide Store.LogStore.Valid, Store.WellFormed, RaftLog.LastTerm;
      log.Cached();
      var todo := log.ScanApply(|applied|);
      var i := 0;
      while i < |todo|
        invariant 0 <= i <= |todo| && applied == old(applied) + todo[..i] && Valid()
      {
        applied := applied + [todo[i]];
        i := i + 1;
      }
    }

    /** Aborts the client requests that the current role holds. */
    method AbortClients()
      requires Valid()
      modifies this`sent
      ensures Valid() && sent == old(sent) + Aborts(Value())
    {
      match role
      case Follower(_, forwarded) => AbortForwarded(forwarded);
      case Leader(_, writes, queue, _) =>
        AbortWrites(writes);
        AbortReads(queue);
        AbortsOfLeader(Value());
      case _ =>
        assert Aborts(Value()) == {};
    }

    method AbortForwarded(forwarded: set<RequestID>)
      requires Valid()
      modifies this`sent
      ensures Valid() && sent == old(sent) + set k | k in forwarded :: Mail(Value(), id, ClientResponse(k, Abort))
    {
      var todo := forwarded;
      while todo != {}
        invariant todo <= forwarded && Valid()
        invariant sent == old(sent) + set k | k in forwarded - todo :: Mail(Value(), id, ClientResponse(k, Abort))
        decreases |todo|
      {
        hide Store.LogStore.Valid, LeaderOk;
        var k :| k in todo;
        Send(id, ClientResponse(k, Abort));
        todo := todo - {k};
      }
      assert forwarded - todo == forwarded;
    }

    method AbortWrites(writes: map<Index, PendingWrite>)
      requires Valid()
      modifies this`sent
      ensures Valid() && sent == old(sent) + WriteAborts(Value(), writes, writes.Keys)
    {
      hide Store.LogStore.Valid, LeaderOk;
      var todo := writes.Keys;
      while todo != {}
        invariant todo <= writes.Keys && Valid()
        invariant sent == old(sent) + WriteAborts(Value(), writes, writes.Keys - todo)
        decreases |todo|
      {
        var i :| i in todo;
        Send(writes[i].from, ClientResponse(writes[i].id, Abort));
        WriteAbortsNext(Value(), writes, writes.Keys - todo, i);
        assert writes.Keys - todo + {i} == writes.Keys - (todo - {i});
        todo := todo - {i};
      }
      assert writes.Keys - todo == writes.Keys;
    }

    method AbortReads(queue: seq<PendingRead>)
      requires Valid()
      modifies this`sent
      ensures Valid() && sent == old(sent) + ReadAborts(Value(), queue, |queue|)
    {
      hide Store.LogStore.Valid, LeaderOk;
      var i := 0;
      while i < |queue|
        invariant 0 <= i <= |queue| && Valid()
        invariant sent == old(sent) + ReadAborts(Value(), queue, i)
      {
        Send(queue[i].from, ClientResponse(queue[i].id, Abort));
        ReadAbortsNext(Value(), queue, i);
        i := i + 1;
      }
    }

    /** Becomes a leaderless follower of a later term. */
    method Advance(term: Term)
      requires Valid() && term > log.contents.term
      modifies this, log
      ensures Became(EnterTerm(old(Value()), term), old(sent))
    {
      hide Store.LogStore.Valid, Store.WellFormed, RaftLog.LastTerm;
      log.Cached();
      hide Aborts;
      AbortClients();
      var _ := log.SetTermVote(term, None);
      role := Follower(None, {});
    }

    // -------------------------------------------------------------- follower

    method HearFrom(from: NodeID)
      requires Valid() && role.Follower?
      modifies this
      ensures Became(HearLeader(old(Value()), from), old(sent))
    {
      hide Store.LogStore.Valid, Store.WellFormed, RaftLog.LastTerm;
      log.Cached();
      hide Aborts;
      if role.leader.Some? {
        if role.leader.value != from { Panic(RaftLog.MultipleLeaders); }
      } else if from !in peers {
        Panic(RaftLog.LeaderNotPeer);
      } else {
        AbortClients();
        role := Follower(Some(from), {});
      }
    }

    method TakeHeartbeat(from: NodeID, lastIndex: Index, commitIndex: Index, readSeq: nat)
      requires Valid() && role.Follower?
      modifies this, log
      ensures Became(OnHeartbeat(old(Value()), from, lastIndex, commitIndex, readSeq), old(sent))
    {
      hide Store.LogStore.Valid, Store.WellFormed, RaftLog.LastTerm;
      log.Cached();
      hide MaybeApply;
      var has := log.Has(lastIndex, log.term);
      var matchIndex := if has then lastIndex else 0;
      Send(from, HeartbeatResponse(matchIndex, readSeq));
      if matchIndex != 0 && commitIndex > log.commitIndex {
        var panic := log.Commit(commitIndex);
        if panic.Some? {
          Panic(panic.value);
        } else {
          ApplyPending();
        }
      }
    }

    method TakeAppend(from: NodeID, baseIndex: Index, baseTerm: Term, entries: seq<Entry>)
      requires Valid() && role.Follower?
      modifies this, log
      ensures Became(OnAppend(old(Value()), from, baseIndex, baseTerm, entries), old(sent))
    {
      hide Store.LogStore.Valid, Store.WellFormed, RaftLog.LastTerm;
      log.Cached();
      hide RaftLog.Splice, RaftLog.Has;
      var has := log.Has(baseIndex, baseTerm);
      if baseIndex == 0 || has {
        var matchIndex := if entries == [] then baseIndex else entries[|entries| - 1].index;
        var panic := log.Splice(entries);
        if panic.Some? {
          Panic(panic.value);
        } else {
          Send(from, AppendResponse(matchIndex, 0));
        }
      } else {
        var rejectIndex := if baseIndex <= log.lastIndex + 1 then baseIndex else log.lastIndex + 1;
        Send(from, AppendResponse(0, rejectIndex));
      }
    }

    method TakeCampaign(from: NodeID, lastIndex: Index, lastTerm: Term)
      requires Valid() && role.Follower?
      modifies this, log
      ensures Became(OnCampaign(old(Value()), from, lastIndex, lastTerm), old(sent))
    {
      hide Store.LogStore.Valid, Store.WellFormed, RaftLog.LastTerm;
      log.Cached();
      if log.vote.Some? && log.vote.value != from {
        Send(from, CampaignResponse(false));
      } else if log.lastTerm > lastTerm || (log.lastTerm == lastTerm && log.lastIndex > lastIndex) {
        Send(from, CampaignResponse(false));
      } else {
        var panic := log.SetTermVote(log.term, Some(from));
        if panic.Some? {
          Panic(panic.value);
        } else {
          Send(from, CampaignResponse(true));
        }
      }
    }

    method FollowerStep(e: Envelope)
      requires Valid() && role.Follower?
      modifies this, log
      ensures Became(StepFollower(old(Value()), e), old(sent))
    {
      hide Store.LogStore.Valid, Store.WellFormed, RaftLog.LastTerm;
      log.Cached();
      hide HearLeader, OnHeartbeat, OnAppend, OnCampaign;
      ghost var o := HearLeader(Value(), e.from);
      HearsAsFollower(Value(), e.from);
      match e.message
      case Heartbeat(lastIndex, commitIndex, readSeq) =>
        if commitIndex > lastIndex { Panic(RaftLog.CommitAfterLast); return; }
        HearFrom(e.from);
        if role.Halted? { return; }
        Chained(old(sent), o, OnHeartbeat(Value(), e.from, lastIndex, commitIndex, readSeq));
        TakeHeartbeat(e.from, lastIndex, commitIndex, readSeq);
      case Append(baseIndex, baseTerm, entries) =>
        if entries != [] && entries[0].index != baseIndex + 1 { Panic(RaftLog.BaseMismatch); return; }
        HearFrom(e.from);
        if role.Halted? { return; }
        Chained(old(sent), o, OnAppend(Value(), e.from, baseIndex, baseTerm, entries));
        TakeAppend(e.from, baseIndex, baseTerm, entries);
      case Read(readSeq) =>
        HearFrom(e.from);
        if role.Halted? { return; }
        Chained(old(sent), o, Out(Value(), {Mail(Value(), e.from, ReadResponse(readSeq))}));
        Send(e.from, ReadResponse(readSeq));
      case Campaign(lastIndex, lastTerm) => TakeCampaign(e.from, lastIndex, lastTerm);
      case ClientRequest(k, request) =>
        if e.from != id { Panic(RaftLog.ForeignClientRequest); return; }
        if role.leader.Some? {
          Send(role.leader.value, ClientRequest(k, request));
          role := role.(forwarded := role.forwarded + {k});
        } else {
          Send(e.from, ClientResponse(k, Abort));
        }
      case ClientResponse(k, response) =>
        if role.leader != Some(e.from) { Panic(RaftLog.ResponseFromNonLeader); return; }
        if k in role.forwarded {
          Send(id, ClientResponse(k, response));
          role := role.(forwarded := role.forwarded - {k});
        }
      case CampaignResponse(_) =>
      case _ => Panic(RaftLog.UnexpectedMessage);
    }

    // -------------------------------------------------------------- candidate

    method Campaigning()
      requires Valid()
      modifies this, log
      ensures Became(HoldElection(old(Value())), old(sent))
    {
      hide Store.LogStore.Valid, Store.WellFormed, RaftLog.LastTerm;
      log.Cached();
      hide Broadcast, RaftLog.LastTerm;
      var term := log.term + 1;
      role := Candidate({id});
      var _ := log.SetTermVote(term, Some(id));
      log.Cached();
      SendAll(Campaign(log.lastIndex, log.lastTerm));
    }

    method IntoCandidate()
      requires Valid()
      modifies this, log
      ensures Became(BecomeCandidate(old(Value())), old(sent))
    {
      hide Store.LogStore.Valid, Store.WellFormed, RaftLog.LastTerm;
      log.Cached();
      hide MaybeApply, HoldElection, Aborts;
      AbortClients();
      ApplyPending();
      Chained(old(sent), Out(Value(), Aborts(old(Value()))), HoldElection(Value()));
      Campaigning();
    }

    method CandidateStep(e: Envelope)
      requires Valid() && role.Candidate? && id !in peers
      modifies this, log
      ensures Became(StepCandidate(old(Value()), e), old(sent))
    {
      hide Store.LogStore.Valid, Store.WellFormed, RaftLog.LastTerm;
      log.Cached();
      hide BecomeLeader, StepFollower;
      match e.message
      case CampaignResponse(vote) =>
        if vote { TakeVote(e.from); }
      case Campaign(_, _) => Send(e.from, CampaignResponse(false));
      case Heartbeat(_, _, _) => FollowWinner(e);
      case Append(_, _, _) => FollowWinner(e);
      case Read(_) => FollowWinner(e);
      case ClientRequest(k, _) => Send(e.from, ClientResponse(k, Abort));
      case _ => Panic(RaftLog.UnexpectedMessage);
    }

    /** Records a vote, and assumes leadership with a quorum of them. */
    method TakeVote(from: NodeID)
      requires Valid() && role.Candidate? && id !in peers
      modifies this, log
      ensures var n := old(Value()).(role := Candidate(old(role).votes + {from}));
        Became(if |n.role.votes| >= QuorumSize(n) then BecomeLeader(n) else Quiet(n), old(sent))
    {
      hide Store.LogStore.Valid, BecomeLeader;
      role := Candidate(role.votes + {from});
      if |role.votes| >= (|peers| + 1) / 2 + 1 { IntoLeader(); }
    }

    /** We lost the election to the sender of the message. */
    method FollowWinner(e: Envelope)
      requires Valid()
      modifies this, log
      ensures Became(StepFollower(old(Value()).(role := Follower(Some(e.from), {})), e), old(sent))
    {
      hide Store.LogStore.Valid, StepFollower;
      role := Follower(Some(e.from), {});
      FollowerStep(e);
    }

    method IntoLeader()
      requires Valid() && id !in peers
      modifies this, log
      ensures Became(BecomeLeader(old(Value())), old(sent))
    {
      hide Store.LogStore.Valid, Store.WellFormed, RaftLog.LastTerm;
      log.Cached();
      hide Propose, MaybeCommit, SendHeartbeats;
      if log.term == 0 { Panic(RaftLog.TermZero); return; }
      if log.vote != Some(id) { Panic(RaftLog.NotOwnVote); return; }
      role := Leader(map p | p in peers :: Progress(0, log.lastIndex + 1, 0), map[], [], 0);
      ghost var o1 := Propose(Value(), None);
      Proposal(None);
      ghost var o2 := MaybeCommit(Value());
      Chained(old(sent), o1, o2);
      CommitAndApply();
      Chained(old(sent), Join(o1, o2), SendHeartbeats(Value()));
      Heartbeats();
    }

    // -------------------------------------------------------------- leader

    method Heartbeats()
      requires Valid()
      modifies this
      ensures Became(SendHeartbeats(old(Value())), old(sent))
    {
      hide Store.LogStore.Valid, Store.WellFormed, RaftLog.LastTerm;
      log.Cached();
      hide Broadcast, RaftLog.LastTerm;
      if !role.Leader? { return; }
      if log.lastTerm != log.term { Panic(RaftLog.LastTermStale); return; }
      SendAll(Heartbeat(log.lastIndex, log.commitIndex, role.readSeq));
    }

    /** The base term and the entries to send after a base index. */
    method Batch(base: Index, probing: bool) returns (baseTerm: Term, entries: seq<Entry>)
      requires Valid()
      ensures baseTerm == RaftLog.TermAt(log.contents.entries, base)
      ensures entries == if probing then [] else RaftLog.Between(log.contents.entries, base, base + maxAppend)
    {
      hide Store.LogStore.Valid, LeaderOk, RaftLog.Between;
      var baseEntry := log.Get(base);
      baseTerm := if baseEntry.Some? then baseEntry.value.term else 0;
      entries := [];
      if !probing { entries := log.ScanFrom(base, maxAppend); }
    }

    /** Sends pending entries, or an empty probe, to one peer. */
    method SendPending(peer: NodeID, probe: bool)
      requires Valid() && role.Leader?
      modifies this
      ensures Became(SendAppend(old(Value()), peer, probe), old(sent))
    {
      hide Store.LogStore.Valid, Store.WellFormed, RaftLog.LastTerm, LeaderOk, SendAppend, PlanAppend, ProgressValid,
        RaftLog.Between, RaftLog.TermAt;
      log.Cached();
      ghost var n := Value();
      SendAppendMeans(n, peer, probe);
      if peer !in role.progress { Panic(RaftLog.UnknownNode); return; }
      var p := role.progress[peer];
      PlanMeans(n.log.entries, p, probe, maxAppend);
      var probing := probe && p.nextIndex > p.matchIndex + 1;
      BatchFits(n.log, p, probing, maxAppend);
      if p.matchIndex == log.lastIndex || (p.nextIndex > log.lastIndex && !probing) {
        assert Value() == WithProgress(Value(), peer, p);
        return;
      }
      ghost var plan := PlanAppend(n.log.entries, p, probe, maxAppend);
      var baseTerm, entries := Batch(p.nextIndex - 1, probing);
      assert plan.message == Some(Append(p.nextIndex - 1, baseTerm, entries));
      Send(peer, Append(p.nextIndex - 1, baseTerm, entries));
      if entries != [] { p := p.(nextIndex := entries[|entries| - 1].index + 1); }
      assert p == plan.progress;
      ProgressKept(n, peer, p);
      role := role.(progress := role.progress[peer := p]);
    }

    /** Appends a command and sends it to every peer that has been sent everything before it. */
    method Proposal(command: Option<Command>)
      requires Valid() && role.Leader?
      modifies this, log
      ensures Became(Propose(old(Value()), command), old(sent))
    {
      hide Store.LogStore.Valid, Store.WellFormed, RaftLog.LastTerm, SendAppend, PlanAppend, LeaderOk, ProposedTo,
        Propose;
      ghost var was := Value();
      var panic := log.Append(command);
      if panic.Some? {
        ProposalFails(was, command);
        Panic(panic.value);
        return;
      }
      ghost var n := Value();
      StillOk(was, n);
      NothingProposed(n);
      log.Cached();
      var todo := peers;
      assert peers - todo == {};
      while todo != {}
        invariant todo <= peers && role.Leader? && log.contents == n.log && log.lastIndex == |n.log.entries|
        invariant n.role.Leader? && LeaderOk(n) && n.peers == peers
        invariant Became(ProposedTo(n, peers - todo), old(sent))
        decreases |todo|
      {
        var peer :| peer in todo;
        ProposeToNext(n, peers - todo, peer);
        if peer in role.progress && role.progress[peer].nextIndex == log.lastIndex {
          Chained(old(sent), ProposedTo(n, peers - todo), SendAppend(Value(), peer, false));
          SendPending(peer, false);
        }
        assert peers - todo + {peer} == peers - (todo - {peer});
        todo := todo - {peer};
      }
      assert peers - todo == peers;
      AllProposed(was, n, command);
    }

    /** The read sequence number that a quorum has confirmed. */
    method ReadQuorum() returns (v: nat)
      requires Valid() && role.Leader? && 1 <= QuorumSize(Value()) <= |ReadTable(Value())|
      ensures v == QuorumValue(ReadTable(Value()), QuorumSize(Value()))
    {
      hide Store.LogStore.Valid, LeaderOk, QuorumValue;
      var table := (map p | p in role.progress :: role.progress[p].readSeq)[id := role.readSeq];
      assert table == ReadTable(Value());
      v := SelectQuorum(table, (|peers| + 1) / 2 + 1);
    }

    /** The index that a quorum has replicated. */
    method MatchQuorum() returns (v: nat)
      requires Valid() && role.Leader? && 1 <= QuorumSize(Value()) <= |MatchTable(Value())|
      ensures v == QuorumValue(MatchTable(Value()), QuorumSize(Value()))
    {
      hide Store.LogStore.Valid, LeaderOk, QuorumValue;
      log.Cached();
      var table := (map p | p in role.progress :: role.progress[p].matchIndex)[id := log.lastIndex];
      assert table == MatchTable(Value());
      v := SelectQuorum(table, (|peers| + 1) / 2 + 1);
    }

    /** Executes the reads that a quorum has confirmed. */
    method ExecuteReads()
      requires Valid()
      modifies this
      ensures Became(MaybeRead(old(Value())), old(sent))
    {
      hide Store.LogStore.Valid, Store.WellFormed, RaftLog.LastTerm, LeaderOk, MaybeRead, QuorumValue, ReadyReads,
        Answered, QuorumSize, ReadTable;
      log.Cached();
      ghost var n := Value();
      assert n.role.Leader? ==> TableFits(n) by { FitsTable(n); }
      ReadsMean(n);
      if !role.Leader? || role.queue == [] { return; }
      if log.commitTerm < log.term || |applied| < log.commitIndex { return; }
      var confirmed := ReadQuorum();
      DrainReads(confirmed);
    }

    /** Answers reads from the front of the queue while they are confirmed. */
    method DrainReads(confirmed: nat)
      requires Valid() && role.Leader?
      modifies this
      ensures var n, k := old(Value()), ReadyReads(old(role.queue), confirmed);
        Became(Out(n.(role := n.role.(queue := n.role.queue[k..])), Answered(n, n.role.queue, k)), old(sent))
    {
      hide Store.LogStore.Valid, Store.WellFormed, LeaderOk, ReadyReads, Answered, Drained;
      ghost var n := Value();
      ghost var k := 0;
      StartDrain(n, confirmed, sent);
      while role.queue != [] && role.queue[0].readSeq <= confirmed
        invariant n.role.Leader? && role.Leader? && Valid() && Drained(n, confirmed, old(sent), k, Value(), sent)
        decreases |role.queue|
      {
        DrainNext(n, confirmed, old(sent), k, Value(), sent);
        ShorterQueue(Value(), role.queue[1..]);
        var read := role.queue[0];
        role := role.(queue := role.queue[1..]);
        Send(read.from, ClientResponse(read.id, ReadAnswer(read.command, applied)));
        k := k + 1;
      }
      FinishDrain(n, confirmed, old(sent), k, Value(), sent);
    }

    /** Commits what a quorum has, applies it, and answers the writes it came from. */
    method CommitAndApply()
      requires Valid()
      modifies this, log
      ensures Became(MaybeCommit(old(Value())), old(sent))
    {
      hide Store.LogStore.Valid, Store.WellFormed, RaftLog.LastTerm, LeaderOk, MaybeCommit, MaybeRead, QuorumValue,
        ApplyAndAnswer, QuorumSize, MatchTable;
      log.Cached();
      ghost var n := Value();
      assert n.role.Leader? ==> TableFits(n) by { FitsTable(n); }
      CommitMeans(n);
      if !role.Leader? { return; }
      var index := MatchQuorum();
      if index <= log.commitIndex { return; }
      var entry := log.Get(index);
      if entry.None? { Panic(RaftLog.CommitMissing); return; }
      if entry.value.term != log.term { return; }
      var priorTerm := log.commitTerm;
      var _ := log.Commit(index);
      log.Cached();
      ghost var committed := Value();
      StillOk(n, committed);
      ApplyAnswering();
      log.Cached();
      if priorTerm != log.term {
        Chained(old(sent), ApplyAndAnswer(committed), MaybeRead(Value()));
        ExecuteReads();
      }
    }

    method ApplyAnswering()
      requires Valid() && role.Leader?
      modifies this
      ensures Became(ApplyAndAnswer(old(Value())), old(sent)) && role.Leader?
    {
      hide Store.LogStore.Valid, Store.WellFormed, LeaderOk, ApplyAndAnswer, RaftLog.Between, AppliedTo, AnswersTo;
      log.Cached();
      ghost var n := Value();
      var todo := log.ScanApply(|applied|);
      AppliedNone(n, todo);
      var i := 0;
      while i < |todo|
        invariant 0 <= i <= |todo| && log.Valid() && log.contents == n.log && n.role.Leader?
        invariant Value() == AppliedTo(n, todo, i) && sent == old(sent) + AnswersTo(n, todo, i)
      {
        var entry := todo[i];
        AppliedNext(n, todo, i);
        ApplyEntry(entry);
        i := i + 1;
      }
      AppliedAll(n, todo);
    }

    /** Applies one entry and answers the write it came from, if that is ours. */
    method ApplyEntry(entry: Entry)
      requires log.Valid() && role.Leader?
      modifies this
      ensures var n := old(Value());
        && Value() == n.(applied := n.applied + [entry], role := n.role.(writes := n.role.writes - {entry.index}))
        && sent == old(sent) +
             if entry.index in n.role.writes
             then {Mail(n, n.role.writes[entry.index].from,
               ClientResponse(n.role.writes[entry.index].id, WriteAnswer(n.applied + [entry])))}
             else {}
    {
      hide Store.LogStore.Valid, Store.WellFormed;
      log.Cached();
      applied := applied + [entry];
      if entry.index in role.writes {
        var write := role.writes[entry.index];
        role := role.(writes := role.writes - {entry.index});
        sent := sent + {Envelope(id, log.term, write.from, ClientResponse(write.id, WriteAnswer(applied)))};
      } else {
        assert role.writes - {entry.index} == role.writes;
      }
    }

    /** Records a confirmed read sequence number, and executes reads if it advances. */
    method TakeReadSeq(from: NodeID, readSeq: nat)
      requires Valid() && role.Leader?
      modifies this
      ensures Became(ConfirmRead(old(Value()), from, readSeq), old(sent))
    {
      hide Store.LogStore.Valid, LeaderOk, MaybeRead;
      if from !in role.progress { Panic(RaftLog.UnknownNode); return; }
      var p := role.progress[from];
      if readSeq <= p.readSeq { return; }
      ProgressFits(Value(), from);
      ProgressKept(Value(), from, AdvanceRead(p, readSeq));
      role := role.(progress := role.progress[from := p.(readSeq := readSeq)]);
      ExecuteReads();
    }

    /** Records a match index, and commits if it advances. */
    method TakeMatch(from: NodeID, matchIndex: Index)
      requires Valid() && matchIndex <= |log.contents.entries|
      modifies this, log
      ensures Became(ConfirmMatch(old(Value()), from, matchIndex), old(sent))
    {
      hide Store.LogStore.Valid, LeaderOk, MaybeCommit;
      if !role.Leader? { return; }
      if from !in role.progress { Panic(RaftLog.UnknownNode); return; }
      var p := role.progress[from];
      if matchIndex <= p.matchIndex { return; }
      ProgressFits(Value(), from);
      ProgressKept(Value(), from, AdvanceMatch(p, matchIndex));
      p := Progress(matchIndex, if p.nextIndex >= matchIndex + 1 then p.nextIndex else matchIndex + 1, p.readSeq);
      role := role.(progress := role.progress[from := p]);
      CommitAndApply();
    }

    /** Moves a peer's next index back, then probes. */
    method ProbeFrom(from: NodeID, nextIndex: Index)
      requires Valid()
      modifies this
      ensures Became(Probe(old(Value()), from, nextIndex), old(sent))
    {
      hide Store.LogStore.Valid, LeaderOk, SendAppend;
      if !role.Leader? { return; }
      if from !in role.progress { Panic(RaftLog.UnknownNode); return; }
      var p := role.progress[from];
      ProgressFits(Value(), from);
      ProgressKept(Value(), from, RegressNext(p, nextIndex));
      if !(nextIndex >= p.nextIndex || p.nextIndex <= p.matchIndex + 1) {
        p := p.(nextIndex := if nextIndex >= p.matchIndex + 1 then nextIndex else p.matchIndex + 1);
      }
      role := role.(progress := role.progress[from := p]);
      SendPending(from, true);
    }

    method TakeHeartbeatResponse(from: NodeID, matchIndex: Index, readSeq: nat)
      requires Valid() && role.Leader?
      modifies this, log
      ensures Became(OnHeartbeatResponse(old(Value()), from, matchIndex, readSeq), old(sent))
    {
      hide Store.LogStore.Valid, LeaderOk, ConfirmRead, ConfirmMatch, Probe;
      log.Cached();
      var lastIndex := log.lastIndex;
      if matchIndex > lastIndex { Panic(RaftLog.FutureMatch); return; }
      if readSeq > role.readSeq { Panic(RaftLog.FutureReadSeq); return; }
      ghost var n := Value();
      ghost var o1 := ConfirmRead(n, from, readSeq);
      ConfirmReadKeepsLog(n, from, readSeq);
      TakeReadSeq(from, readSeq);
      ghost var o2 := if matchIndex == 0 then Probe(o1.node, from, lastIndex) else Quiet(o1.node);
      Chained(old(sent), o1, o2);
      if matchIndex == 0 {
        ProbeKeepsLog(Value(), from, lastIndex);
        ProbeFrom(from, lastIndex);
      }
      Chained(old(sent), Join(o1, o2), ConfirmMatch(o2.node, from, matchIndex));
      TakeMatch(from, matchIndex);
    }

    method TakeAppendResponse(from: NodeID, matchIndex: Index, rejectIndex: Index)
      requires Valid() && role.Leader?
      modifies this, log
      ensures Became(OnAppendResponse(old(Value()), from, matchIndex, rejectIndex), old(sent))
    {
      hide Store.LogStore.Valid, LeaderOk, ConfirmMatch, Probe, SendAppend;
      log.Cached();
      if rejectIndex == 0 && matchIndex > 0 {
        if matchIndex > log.lastIndex { Panic(RaftLog.FutureMatch); return; }
        ghost var o1 := ConfirmMatch(Value(), from, matchIndex);
        TakeMatch(from, matchIndex);
        if role.Leader? {
          Chained(old(sent), o1, SendAppend(Value(), from, false));
          SendPending(from, false);
        } else {
          Chained(old(sent), o1, Quiet(Value()));
        }
      } else if matchIndex == 0 && rejectIndex > 0 {
        if rejectIndex > log.lastIndex { Panic(RaftLog.FutureReject); return; }
        if from !in role.progress { Panic(RaftLog.UnknownNode); return; }
        var p := role.progress[from];
        if rejectIndex <= p.matchIndex { return; }
        if rejectIndex >= p.nextIndex || p.nextIndex <= p.matchIndex + 1 { return; }
        assert RegressNext(p, rejectIndex) != p;
        ProbeFrom(from, rejectIndex);
      } else {
        Panic(RaftLog.InvalidAppendResponse);
      }
    }

    method TakeWrite(from: NodeID, k: RequestID, command: Command)
      requires Valid() && role.Leader?
      modifies this, log
      ensures Became(OnWrite(old(Value()), from, k, command), old(sent))
    {
      hide Store.LogStore.Valid, LeaderOk, Propose, MaybeCommit;
      ghost var o1 := Propose(Value(), Some(command));
      Proposal(Some(command));
      if !role.Leader? { return; }
      log.Cached();
      MoreWrites(Value(), role.writes[log.lastIndex := PendingWrite(from, k)]);
      role := role.(writes := role.writes[log.lastIndex := PendingWrite(from, k)]);
      if |peers| + 1 == 1 {
        Chained(old(sent), o1, MaybeCommit(Value()));
        CommitAndApply();
      } else {
        Chained(old(sent), o1, Quiet(Value()));
      }
    }

    method TakeRead(from: NodeID, k: RequestID, command: Command)
      requires Valid() && role.Leader?
      modifies this
      ensures Became(OnRead(old(Value()), from, k, command), old(sent))
    {
      hide Store.LogStore.Valid, LeaderOk, MaybeRead, Broadcast;
      ghost var o1 := AcceptRead(Value(), from, k, command);
      MoreReads(Value(), role.readSeq + 1, role.queue + [PendingRead(role.readSeq + 1, from, k, command)]);
      var read := PendingRead(role.readSeq + 1, from, k, command);
      role := role.(readSeq := role.readSeq + 1, queue := role.queue + [read]);
      SendAll(Read(role.readSeq));
      if |peers| + 1 == 1 {
        Chained(old(sent), o1, MaybeRead(Value()));
        ExecuteReads();
      }
    }

    method LeaderStep(e: Envelope)
      requires Valid() && role.Leader?
      modifies this, log
      ensures Became(StepLeader(old(Value()), e), old(sent))
    {
      hide Store.LogStore.Valid, OnHeartbeatResponse, OnAppendResponse, ConfirmRead, OnWrite, OnRead;
      log.Cached();
      match e.message
      case HeartbeatResponse(matchIndex, readSeq) => TakeHeartbeatResponse(e.from, matchIndex, readSeq);
      case AppendResponse(matchIndex, rejectIndex) => TakeAppendResponse(e.from, matchIndex, rejectIndex);
      case ReadResponse(readSeq) => TakeReadSeq(e.from, readSeq);
      case ClientRequest(k, WriteRequest(command)) => TakeWrite(e.from, k, command);
      case ClientRequest(k, ReadRequest(command)) => TakeRead(e.from, k, command);
      case ClientRequest(k, StatusRequest) =>
        var matches := (map p | p in role.progress :: role.progress[p].matchIndex)[id := log.lastIndex];
        assert matches == MatchTable(Value());
        Send(e.from, ClientResponse(k, StatusAnswer(matches, log.commitIndex, |applied|)));
      case Campaign(_, _) => Send(e.from, CampaignResponse(false));
      case CampaignResponse(_) =>
      case Heartbeat(_, _, _) => Panic(RaftLog.SawOtherLeader);
      case Append(_, _, _) => Panic(RaftLog.SawOtherLeader);
      case Read(_) => Panic(RaftLog.SawOtherLeader);
      case ClientResponse(_, _) => Panic(RaftLog.UnexpectedMessage);
    }

    // -------------------------------------------------------------- node

    method RoleStep(e: Envelope)
      requires Valid() && id !in peers
      modifies this, log
      ensures Became(StepRole(old(Value()), e), old(sent))
    {
      hide Store.LogStore.Valid, LeaderOk, StepFollower, StepCandidate, StepLeader;
      match role
      case Follower(_, _) => FollowerStep(e);
      case Candidate(_) => CandidateStep(e);
      case Leader(_, _, _, _) => LeaderStep(e);
      case Halted(_) =>
    }

    /** Processes an inbound message. */
    method StepMessage(e: Envelope)
      requires Valid() && id !in peers
      modifies this, log
      ensures Became(Step(old(Value()), e), old(sent))
    {
      hide Store.LogStore.Valid, LeaderOk, StepRole, EnterTerm;
      log.Cached();
      if role.Halted? { return; }
      if e.from !in peers && e.from != id { Panic(RaftLog.UnknownSender); return; }
      if e.term < log.term { return; }
      if e.term > log.term {
        ghost var o := EnterTerm(Value(), e.term);
        Advance(e.term);
        Chained(old(sent), o, StepRole(Value(), e));
      }
      RoleStep(e);
    }

    /** Processes a tick on which the role's timer fires. */
    method TimerTick()
      requires Valid()
      modifies this, log
      ensures Became(Tick(old(Value())), old(sent))
    {
      hide Store.LogStore.Valid, LeaderOk, BecomeCandidate, HoldElection, SendHeartbeats;
      match role
      case Follower(_, _) => IntoCandidate();
      case Candidate(_) => Campaigning();
      case Leader(_, _, _, _) => Heartbeats();
      case Halted(_) =>
    }
  }

  lemma ProgressFits(n: Node, peer: NodeID)
    requires n.role.Leader? && LeaderOk(n) && peer in n.role.progress
    ensures ProgressValid(n.role.progress[peer], |n.log.entries|)
  {
  }

  lemma MoreWrites(n: Node, writes: map<Index, PendingWrite>)
    requires n.role.Leader? && LeaderOk(n)
    ensures LeaderOk(n.(role := n.role.(writes := writes)))
  {
  }

  lemma MoreReads(n: Node, readSeq: nat, queue: seq<PendingRead>)
    requires n.role.Leader? && LeaderOk(n)
    ensures LeaderOk(n.(role := n.role.(readSeq := readSeq, queue := queue)))
  {
  }

  lemma ConfirmReadKeepsLog(n: Node, from: NodeID, readSeq: nat)
    requires n.role.Leader?
    ensures ConfirmRead(n, from, readSeq).node.log == n.log
  {
    hide QuorumValue;
  }

  lemma ProbeKeepsLog(n: Node, from: NodeID, nextIndex: Index)
    ensures Probe(n, from, nextIndex).node.log == n.log
  {
  }

  lemma HearsAsFollower(n: Node, from: NodeID)
    requires n.role.Follower?
    ensures HearLeader(n, from).node.role.Follower? || HearLeader(n, from).node.role.Halted?
  {
  }

  /** A longer log leaves the leader's progress within it. */
  lemma StillOk(was: Node, n: Node)
    requires LeaderOk(was) && n == was.(log := n.log) && |was.log.entries| <= |n.log.entries|
    ensures LeaderOk(n)
  {
  }

  /** The last entry of a batch is within the log, so is the index after it. */
  lemma SentWithin(log: RaftLog.Log, base: nat, count: nat)
    requires Store.WellFormed(log)
    ensures var es := RaftLog.Between(log.entries, base, base + count);
      es != [] ==> base < es[|es| - 1].index <= |log.entries|
  {
    hide RaftLog.TermsAscend;
  }

  // ---------------------------------------------------------------- aborts

  ghost function WriteAborts(n: Node, writes: map<Index, PendingWrite>, keys: set<Index>): set<Envelope> {
    set i | i in writes && i in keys :: Mail(n, writes[i].from, ClientResponse(writes[i].id, Abort))
  }

  lemma WriteAbortsNext(n: Node, writes: map<Index, PendingWrite>, keys: set<Index>, i: Index)
    requires i in writes
    ensures WriteAborts(n, writes, keys + {i})
      == WriteAborts(n, writes, keys) + {Mail(n, writes[i].from, ClientResponse(writes[i].id, Abort))}
  {
  }

  ghost function ReadAborts(n: Node, queue: seq<PendingRead>, k: nat): set<Envelope>
    requires k <= |queue|
  {
    set i | 0 <= i < k :: Mail(n, queue[i].from, ClientResponse(queue[i].id, Abort))
  }

  lemma ReadAbortsNext(n: Node, queue: seq<PendingRead>, k: nat)
    requires k < |queue|
    ensures ReadAborts(n, queue, k + 1)
      == ReadAborts(n, queue, k) + {Mail(n, queue[k].from, ClientResponse(queue[k].id, Abort))}
  {
  }

  lemma AbortsOfLeader(n: Node)
    requires n.role.Leader?
    ensures Aborts(n) == WriteAborts(n, n.role.writes, n.role.writes.Keys) + ReadAborts(n, n.role.queue, |n.role.queue|)
  {
  }

  // ---------------------------------------------------------------- appends to one peer

  lemma ProgressKept(n: Node, peer: NodeID, p: Progress)
    requires n.role.Leader? && LeaderOk(n) && peer in n.role.progress && ProgressValid(p, |n.log.entries|)
    ensures LeaderOk(WithProgress(n, peer, p))
  {
    var n' := WithProgress(n, peer, p);
    assert n'.role.progress.Keys == n.role.progress.Keys;
  }

  lemma SendAppendMeans(n: Node, peer: NodeID, probe: bool)
    requires n.role.Leader? && LeaderOk(n)
    ensures peer !in n.role.progress ==> SendAppend(n, peer, probe) == Halt(n, RaftLog.UnknownNode)
    ensures peer in n.role.progress ==>
      && ProgressValid(n.role.progress[peer], |n.log.entries|)
      && var plan := PlanAppend(n.log.entries, n.role.progress[peer], probe, n.maxAppend);
         SendAppend(n, peer, probe) == Out(WithProgress(n, peer, plan.progress), Posted(n, peer, plan.message))
  {
    hide PlanAppend, ProgressValid;
  }

  /** The entries to send: none for a probe, otherwise a batch. */
  function Pending(entries: seq<Entry>, p: Progress, probing: bool, count: nat): seq<Entry>
    requires p.nextIndex > 0
  {
    if probing then [] else RaftLog.Between(entries, p.nextIndex - 1, p.nextIndex - 1 + count)
  }

  lemma PlanMeans(entries: seq<Entry>, p: Progress, probe: bool, count: nat)
    requires ProgressValid(p, |entries|)
    ensures p.nextIndex > 0
    ensures var probing := probe && p.nextIndex > p.matchIndex + 1;
      var plan := PlanAppend(entries, p, probe, count);
      var es := Pending(entries, p, probing, count);
      if p.matchIndex == |entries| || (p.nextIndex > |entries| && !probing) then plan == Plan(p, None)
      else
        && plan.message == Some(Append(p.nextIndex - 1, RaftLog.TermAt(entries, p.nextIndex - 1), es))
        && plan.progress == if es == [] then p else p.(nextIndex := es[|es| - 1].index + 1)
  {
    hide RaftLog.Between, RaftLog.TermAt;
  }

  /** Sending a batch leaves the next index within the log. */
  lemma BatchFits(log: RaftLog.Log, p: Progress, probing: bool, count: nat)
    requires Store.WellFormed(log) && ProgressValid(p, |log.entries|)
    ensures p.nextIndex > 0
    ensures var es := Pending(log.entries, p, probing, count);
      es != [] ==> ProgressValid(p.(nextIndex := es[|es| - 1].index + 1), |log.entries|)
  {
    hide Store.WellFormed, RaftLog.Between;
    SentWithin(log, p.nextIndex - 1, count);
  }

  // ---------------------------------------------------------------- proposals, peer by peer

  /** What a proposal, already in the log, has sent to the peers in `done`. */
  ghost function ProposedTo(n: Node, done: set<NodeID>): Out
    requires n.role.Leader? && LeaderOk(n)
  {
    var plans := map p | p in n.role.progress && p in done && Due(n, p) ::
      PlanAppend(n.log.entries, n.role.progress[p], false, n.maxAppend);
    Out(n.(role := n.role.(progress := map p | p in n.role.progress ::
              if p in plans then plans[p].progress else n.role.progress[p])),
        set p | p in plans && plans[p].message.Some? :: Mail(n, p, plans[p].message.value))
  }

  lemma ProposalFails(n: Node, command: Option<Command>)
    requires n.role.Leader? && RaftLog.Append(n.log, command).Failed?
    ensures Propose(n, command) == Halt(n, RaftLog.Append(n.log, command).panic)
  {
  }

  lemma NothingProposed(n: Node)
    requires n.role.Leader? && LeaderOk(n)
    ensures ProposedTo(n, {}) == Out(n, {})
  {
    var o := ProposedTo(n, {});
    assert o.node.role.progress == n.role.progress;
  }

  lemma ProposeToNext(n: Node, done: set<NodeID>, peer: NodeID)
    requires n.role.Leader? && LeaderOk(n) && peer in n.peers && peer !in done
    ensures var o := ProposedTo(n, done);
      && o.node.role.Leader? && o.node.log == n.log && o.node.peers == n.peers
      && peer in n.role.progress && peer in o.node.role.progress && o.node.role.progress[peer] == n.role.progress[peer]
      && (Due(n, peer) ==> ProposedTo(n, done + {peer}) == Join(o, SendAppend(o.node, peer, false)))
      && (!Due(n, peer) ==> ProposedTo(n, done + {peer}) == o)
      && ProposedTo(n, done + {peer}).node.role.Leader? && ProposedTo(n, done + {peer}).node.log == n.log
  {
    hide PlanAppend;
    var o, o' := ProposedTo(n, done), ProposedTo(n, done + {peer});
    var p := n.role.progress[peer];
    assert ProgressValid(p, |n.log.entries|);
    if Due(n, peer) {
      var plan := PlanAppend(n.log.entries, p, false, n.maxAppend);
      assert o'.node.role.progress == o.node.role.progress[peer := plan.progress];
      assert Posted(o.node, peer, plan.message) == Posted(n, peer, plan.message);
      assert o'.sent == o.sent + Posted(n, peer, plan.message);
    } else {
      assert o'.node.role.progress == o.node.role.progress;
      assert o'.sent == o.sent;
    }
  }

  lemma AllProposed(was: Node, n: Node, command: Option<Command>)
    requires was.role.Leader? && n.role.Leader? && LeaderOk(n)
    requires RaftLog.Append(was.log, command).Done? && n == was.(log := RaftLog.Append(was.log, command).log)
    ensures Propose(was, command) == ProposedTo(n, n.peers)
  {
    hide PlanAppend;
    var o, o' := Propose(was, command), ProposedTo(n, n.peers);
    assert o.node.role.progress == o'.node.role.progress;
    assert o.sent == o'.sent;
  }

  // ---------------------------------------------------------------- starting

  /** `Node::new`: an error if the node is among its own peers, and otherwise the node started on its stored log. */
  method NewNode(id: NodeID, peers: set<NodeID>, maxAppend: nat, log: Store.LogStore, applied: seq<Entry>)
    returns (node: RawNode?)
    requires log.Valid()
    modifies log
    ensures id in peers ==> node == null && log.Valid() && log.contents == old(log.contents)
    ensures id !in peers ==> node != null && fresh(node) && node.log == log
    ensures id !in peers ==> node.Became(Start(id, peers, maxAppend, old(log.contents), applied), {})
  {
    hide Store.LogStore.Valid, MaybeApply, BecomeCandidate, BecomeLeader;
    if id in peers { return null; }
    node := new RawNode(id, peers, maxAppend, log, applied);
    AppliedPeers(Node(id, peers, maxAppend, log.contents, applied, Follower(None, {})));
    node.ElectIfAlone();
    StartedAs(id, peers, maxAppend, old(log.contents), applied);
  }

  lemma AppliedPeers(n: Node)
    ensures MaybeApply(n) == n.(applied := MaybeApply(n).applied)
  {}

  lemma StartedAs(id: NodeID, peers: set<NodeID>, maxAppend: nat, log: RaftLog.Log, applied: seq<Entry>)
    ensures var n := MaybeApply(Node(id, peers, maxAppend, log, applied, Follower(None, {})));
      Start(id, peers, maxAppend, log, applied)
      == if ClusterSize(n) == 1 then Join(BecomeCandidate(n), BecomeLeader(BecomeCandidate(n).node)) else Quiet(n)
  {
    hide MaybeApply, BecomeCandidate, BecomeLeader;
  }

  // ---------------------------------------------------------------- reads, one by one

  /** `k` ready reads have been taken off the queue of `n` and answered. */
  ghost predicate Drained(n: Node, confirmed: nat, before: set<Envelope>, k: nat, now: Node, sent: set<Envelope>)
    requires n.role.Leader?
  {
    && k <= |n.role.queue|
    && now == n.(role := n.role.(queue := n.role.queue[k..]))
    && ReadyReads(n.role.queue, confirmed) == k + ReadyReads(n.role.queue[k..], confirmed)
    && sent == before + Answered(n, n.role.queue, k)
  }

  lemma StartDrain(n: Node, confirmed: nat, before: set<Envelope>)
    requires n.role.Leader?
    ensures Drained(n, confirmed, before, 0, n, before)
  {
    assert n.role.queue[0..] == n.role.queue;
  }

  lemma DrainNext(n: Node, confirmed: nat, before: set<Envelope>, k: nat, now: Node, sent: set<Envelope>)
    requires n.role.Leader? && Drained(n, confirmed, before, k, now, sent)
    ensures now.role.Leader?
    ensures now.role.queue != [] && now.role.queue[0].readSeq <= confirmed ==>
      var read := now.role.queue[0];
      var next := now.(role := now.role.(queue := now.role.queue[1..]));
      Drained(n, confirmed, before, k + 1, next,
              sent + {Mail(next, read.from, ClientResponse(read.id, ReadAnswer(read.command, next.applied)))})
  {
    var queue := n.role.queue;
    if now.role.queue != [] && now.role.queue[0].readSeq <= confirmed {
      assert queue[k..][1..] == queue[k + 1..];
      NextReady(queue[k..], confirmed);
      hide ReadyReads, Answered;
      AnsweredNext(n, queue, k);
    }
  }

  lemma FinishDrain(n: Node, confirmed: nat, before: set<Envelope>, k: nat, now: Node, sent: set<Envelope>)
    requires n.role.Leader? && Drained(n, confirmed, before, k, now, sent) && now.role.Leader?
    requires now.role.queue == [] || now.role.queue[0].readSeq > confirmed
    ensures k == ReadyReads(n.role.queue, confirmed)
    ensures now == n.(role := n.role.(queue := n.role.queue[k..])) && sent == before + Answered(n, n.role.queue, k)
  {
    NextReady(n.role.queue[k..], confirmed);
  }

  lemma NextReady(queue: seq<PendingRead>, confirmed: nat)
    ensures ReadyReads(queue, confirmed) == if queue == [] || queue[0].readSeq > confirmed then 0
      else 1 + ReadyReads(queue[1..], confirmed)
  {
  }

  lemma ShorterQueue(n: Node, queue: seq<PendingRead>)
    requires n.role.Leader? && LeaderOk(n)
    ensures LeaderOk(n.(role := n.role.(queue := queue)))
  {
  }

  lemma AnsweredNext(n: Node, queue: seq<PendingRead>, k: nat)
    requires k < |queue|
    ensures Answered(n, queue, k + 1)
         == Answered(n, queue, k)
           + {Mail(n, queue[k].from, ClientResponse(queue[k].id, ReadAnswer(queue[k].command, n.applied)))}
  {
  }

  // ---------------------------------------------------------------- applied entries, one by one

  ghost function AppliedTo(n: Node, todo: seq<Entry>, i: nat): Node
    requires n.role.Leader? && i <= |todo|
  {
    n.(applied := n.applied + todo[..i],
       role := n.role.(writes := map j | j in n.role.writes && !(|n.applied| < j <= |n.applied| + i) ::
         n.role.writes[j]))
  }

  ghost function AnswersTo(n: Node, todo: seq<Entry>, i: nat): set<Envelope>
    requires n.role.Leader? && i <= |todo|
  {
    set j | j in n.role.writes && |n.applied| < j <= |n.applied| + i ::
      Mail(n, n.role.writes[j].from,
        ClientResponse(n.role.writes[j].id, WriteAnswer(n.applied + todo[..j - |n.applied|])))
  }

  lemma AppliedNone(n: Node, todo: seq<Entry>)
    requires n.role.Leader?
    ensures AppliedTo(n, todo, 0) == n && AnswersTo(n, todo, 0) == {}
  {
    assert AppliedTo(n, todo, 0).role.writes == n.role.writes;
  }

  lemma AppliedNext(n: Node, todo: seq<Entry>, i: nat)
    requires n.role.Leader? && i < |todo| && Store.WellFormed(n.log)
    requires todo == RaftLog.Between(n.log.entries, |n.applied|, n.log.commitIndex)
    ensures var was, index := AppliedTo(n, todo, i), |n.applied| + i + 1;
      && todo[i].index == index
      && was.role.Leader? && was.id == n.id && was.log == n.log
      && AppliedTo(n, todo, i + 1)
        == was.(applied := was.applied + [todo[i]], role := was.role.(writes := was.role.writes - {index}))
      && AnswersTo(n, todo, i + 1) == AnswersTo(n, todo, i) +
           if index in was.role.writes
           then {Mail(n, was.role.writes[index].from,
             ClientResponse(was.role.writes[index].id, WriteAnswer(was.applied + [todo[i]])))}
           else {}
  {
    hide RaftLog.TermsAscend;
    var was := AppliedTo(n, todo, i);
    assert n.applied + todo[..i + 1] == was.applied + [todo[i]];
    assert AppliedTo(n, todo, i + 1).role.writes == was.role.writes - {|n.applied| + i + 1};
  }

  lemma AppliedAll(n: Node, todo: seq<Entry>)
    requires n.role.Leader? && LeaderOk(n) && todo == RaftLog.Between(n.log.entries, |n.applied|, n.log.commitIndex)
    ensures ApplyAndAnswer(n) == Out(AppliedTo(n, todo, |todo|), AnswersTo(n, todo, |todo|))
    ensures LeaderOk(ApplyAndAnswer(n).node) && ApplyAndAnswer(n).node.role.Leader?
  {
    assert todo[..|todo|] == todo;
  }
}
