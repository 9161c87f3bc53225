/**
 * One Raft node as a transition function: `Step` processes an inbound message
 * and `Tick` advances time, returning the new node and the messages it sent.
 * The branches, their order and the panics follow `src/raft/node.rs`. The
 * state machine is the sequence of entries applied to it, so a read's answer
 * carries the very state it was computed on.
 */
module RaftNode {
  import opened Common
  import opened RaftLog

  type RequestID = nat

  datatype Request = ReadRequest(command: Command) | WriteRequest(command: Command) | StatusRequest

  datatype Response =
    | Abort
    | ReadAnswer(command: Command, state: seq<Entry>)
    | WriteAnswer(state: seq<Entry>)
    | StatusAnswer(matches: map<NodeID, Index>, commitIndex: Index, appliedIndex: Index)

  datatype Message =
    | Campaign(lastIndex: Index, lastTerm: Term)
    | CampaignResponse(vote: bool)
    | Heartbeat(lastIndex: Index, commitIndex: Index, readSeq: nat)
    | HeartbeatResponse(matchIndex: Index, readSeq: nat)
    | Append(baseIndex: Index, baseTerm: Term, entries: seq<Entry>)
    | AppendResponse(matchIndex: Index, rejectIndex: Index)
    | Read(readSeq: nat)
    | ReadResponse(readSeq: nat)
    | ClientRequest(id: RequestID, request: Request)
    | ClientResponse(id: RequestID, response: Response)

  datatype Envelope = Envelope(from: NodeID, term: Term, to: NodeID, message: Message)

  /** Per-follower replication progress in the leader's term. */
  datatype Progress = Progress(matchIndex: Index, nextIndex: Index, readSeq: nat)

  datatype PendingWrite = PendingWrite(from: NodeID, id: RequestID)
  datatype PendingRead = PendingRead(readSeq: nat, from: NodeID, id: RequestID, command: Command)

  datatype Role =
    | Follower(leader: Option<NodeID>, forwarded: set<RequestID>)
    | Candidate(votes: set<NodeID>)
    | Leader(
        progress: map<NodeID, Progress>,
        writes: map<Index, PendingWrite>,
        queue: seq<PendingRead>,
        readSeq: nat)
    | Halted(panic: Panic)

  datatype Node = Node(
    id: NodeID,
    peers: set<NodeID>,
    maxAppend: nat,
    log: Log,
    applied: seq<Entry>,
    role: Role)

  /** A node together with the messages sent on the way to it. */
  datatype Out = Out(node: Node, sent: set<Envelope>)

  function Quiet(n: Node): Out { Out(n, {}) }

  function Halt(n: Node, p: Panic): Out { Out(n.(role := Halted(p)), {}) }

  /** `b` was computed from `a.node`: keep its node, and everything sent. */
  function Join(a: Out, b: Out): Out { Out(b.node, a.sent + b.sent) }

  function Mail(n: Node, to: NodeID, m: Message): Envelope { Envelope(n.id, n.log.term, to, m) }

  function Broadcast(n: Node, m: Message): set<Envelope> { set p | p in n.peers :: Mail(n, p, m) }

  function ClusterSize(n: Node): nat { |n.peers| + 1 }

  function QuorumSize(n: Node): nat { ClusterSize(n) / 2 + 1 }

  // ---------------------------------------------------------------- quorum value

  function AtLeast(m: map<NodeID, nat>, v: nat): set<NodeID> { set p | p in m && m[p] >= v }

  /** `v` is the `q`-th largest of the values: what `quorum_value` selects. */
  ghost predicate IsQuorumValue(m: map<NodeID, nat>, q: nat, v: nat) {
    && v in m.Values
    && |AtLeast(m, v)| >= q
    && |AtLeast(m, v + 1)| < q
  }

  lemma QuorumValueExists(m: map<NodeID, nat>, q: nat, top: nat)
    requires 1 <= q <= |m|
    requires |AtLeast(m, top)| < q
    ensures exists v :: IsQuorumValue(m, q, v)
  {
    assert AtLeast(m, 0) == m.Keys;
    if |AtLeast(m, top - 1)| >= q {
      assert AtLeast(m, top - 1) != AtLeast(m, top) <= AtLeast(m, top - 1);
      var p :| p in AtLeast(m, top - 1) && p !in AtLeast(m, top);
      assert m[p] == top - 1;
      assert IsQuorumValue(m, q, top - 1);
    } else {
      QuorumValueExists(m, q, top - 1);
    }
  }

  lemma ValuesBounded(m: map<NodeID, nat>) returns (top: nat)
    ensures AtLeast(m, top) == {}
  {
    if m == map[] {
      top := 0;
    } else {
      var p :| p in m;
      var rest := map q | q in m && q != p :: m[q];
      assert rest.Keys == m.Keys - {p};
      assert |rest.Keys| < |m.Keys|;
      top := ValuesBounded(rest);
      var top' := if m[p] >= top then m[p] + 1 else top;
      forall q | q in m ensures m[q] < top' {
        if q != p { assert q in rest; assert rest[q] == m[q]; assert q !in AtLeast(rest, top); }
      }
      top := top';
    }
  }

  /** The quorum value of a non-empty table of per-node values. */
  ghost function QuorumValue(m: map<NodeID, nat>, q: nat): (v: nat)
    requires 1 <= q <= |m|
    ensures IsQuorumValue(m, q, v)
  {
    assert exists v :: IsQuorumValue(m, q, v) by {
      var top := ValuesBounded(m);
      QuorumValueExists(m, q, top);
    }
    var v :| IsQuorumValue(m, q, v);
    v
  }

  // ---------------------------------------------------------------- all roles

  /** Applies committed entries that have not been applied yet. */
  function MaybeApply(n: Node): Node {
    n.(applied := n.applied + Between(n.log.entries, |n.applied|, n.log.commitIndex))
  }

  /** The abort responses a node sends to clients when its role ends. */
  function Aborts(n: Node): set<Envelope> {
    match n.role
    case Follower(_, forwarded) => set id | id in forwarded :: Mail(n, n.id, ClientResponse(id, Abort))
    case Leader(_, writes, queue, _) =>
      (set i | i in writes :: Mail(n, writes[i].from, ClientResponse(writes[i].id, Abort))) +
      (set i | 0 <= i < |queue| :: Mail(n, queue[i].from, ClientResponse(queue[i].id, Abort)))
    case _ => {}
  }

  /** Discovers a new term: leaderless follower of it. */
  function EnterTerm(n: Node, term: Term): Out {
    match SetTermVote(n.log, term, None)
    case Failed(p) => Halt(n, p)
    case Done(log) => Out(n.(log := log, role := Follower(None, {})), Aborts(n))
  }

  // ---------------------------------------------------------------- follower

  /** A message that only a leader sends: it must be ours, or we follow it. */
  function HearLeader(n: Node, from: NodeID): Out
    requires n.role.Follower?
  {
    match n.role.leader
    case Some(leader) => if leader == from then Quiet(n) else Halt(n, MultipleLeaders)
    case None =>
      if from !in n.peers then Halt(n, LeaderNotPeer)
      else Out(n.(role := Follower(Some(from), {})), Aborts(n))
  }

  function OnHeartbeat(n: Node, from: NodeID, lastIndex: Index, commitIndex: Index, readSeq: nat): Out {
    var matchIndex := if Has(n.log.entries, lastIndex, n.log.term) then lastIndex else 0;
    var reply := {Mail(n, from, HeartbeatResponse(matchIndex, readSeq))};
    if matchIndex != 0 && commitIndex > n.log.commitIndex then
      match Commit(n.log, commitIndex)
      case Failed(p) => Join(Out(n, reply), Halt(n, p))
      case Done(log) => Out(MaybeApply(n.(log := log)), reply)
    else
      Out(n, reply)
  }

  function OnAppend(n: Node, from: NodeID, baseIndex: Index, baseTerm: Term, entries: seq<Entry>): Out {
    if baseIndex == 0 || Has(n.log.entries, baseIndex, baseTerm) then
      var matchIndex := if entries == [] then baseIndex else entries[|entries| - 1].index;
      match Splice(n.log, entries)
      case Failed(p) => Halt(n, p)
      case Done(log) =>
        var n' := n.(log := log);
        Out(n', {Mail(n', from, AppendResponse(matchIndex, 0))})
    else
      var lastIndex := |n.log.entries|;
      var rejectIndex := if baseIndex <= lastIndex + 1 then baseIndex else lastIndex + 1;
      Out(n, {Mail(n, from, AppendResponse(0, rejectIndex))})
  }

  function OnCampaign(n: Node, from: NodeID, lastIndex: Index, lastTerm: Term): Out {
    if n.log.vote.Some? && n.log.vote.value != from then
      Out(n, {Mail(n, from, CampaignResponse(false))})
    else if Newer(n.log.entries, lastIndex, lastTerm) then
      Out(n, {Mail(n, from, CampaignResponse(false))})
    else
      match SetTermVote(n.log, n.log.term, Some(from))
      case Failed(p) => Halt(n, p)
      case Done(log) => Out(n.(log := log), {Mail(n, from, CampaignResponse(true))})
  }

  /** A follower processes a message of its own term. */
  function StepFollower(n: Node, e: Envelope): Out
    requires n.role.Follower?
  {
    match e.message
    case Heartbeat(lastIndex, commitIndex, readSeq) =>
      if commitIndex > lastIndex then Halt(n, CommitAfterLast)
      else
        var o := HearLeader(n, e.from);
        if o.node.role.Halted? then o
        else Join(o, OnHeartbeat(o.node, e.from, lastIndex, commitIndex, readSeq))
    case Append(baseIndex, baseTerm, entries) =>
      if entries != [] && entries[0].index != baseIndex + 1 then Halt(n, BaseMismatch)
      else
        var o := HearLeader(n, e.from);
        if o.node.role.Halted? then o
        else Join(o, OnAppend(o.node, e.from, baseIndex, baseTerm, entries))
    case Read(readSeq) =>
      var o := HearLeader(n, e.from);
      if o.node.role.Halted? then o
      else Join(o, Out(o.node, {Mail(o.node, e.from, ReadResponse(readSeq))}))
    case Campaign(lastIndex, lastTerm) => OnCampaign(n, e.from, lastIndex, lastTerm)
    case ClientRequest(id, request) =>
      if e.from != n.id then Halt(n, ForeignClientRequest)
      else (match n.role.leader
        case Some(leader) =>
          Out(n.(role := n.role.(forwarded := n.role.forwarded + {id})),
              {Mail(n, leader, ClientRequest(id, request))})
        case None => Out(n, {Mail(n, e.from, ClientResponse(id, Abort))}))
    case ClientResponse(id, response) =>
      if n.role.leader != Some(e.from) then Halt(n, ResponseFromNonLeader)
      else if id in n.role.forwarded then
        Out(n.(role := n.role.(forwarded := n.role.forwarded - {id})),
            {Mail(n, n.id, ClientResponse(id, response))})
      else Quiet(n)
    case CampaignResponse(_) => Quiet(n)
    case _ => Halt(n, UnexpectedMessage)
  }

  // ---------------------------------------------------------------- candidate

  /** Starts an election in the next term, voting for ourself. */
  function HoldElection(n: Node): Out {
    match SetTermVote(n.log, n.log.term + 1, Some(n.id))
    case Failed(p) => Halt(n, p)
    case Done(log) =>
      var n' := n.(log := log, role := Candidate({n.id}));
      Out(n', Broadcast(n', Campaign(|log.entries|, LastTerm(log.entries))))
  }

  function BecomeCandidate(n: Node): Out {
    Join(Out(MaybeApply(n), Aborts(n)), HoldElection(MaybeApply(n)))
  }

  function NewProgress(n: Node): map<NodeID, Progress> {
    map p | p in n.peers :: Progress(0, |n.log.entries| + 1, 0)
  }

  ghost function BecomeLeader(n: Node): Out
  {
    if n.log.term == 0 then Halt(n, TermZero)
    else if n.log.vote != Some(n.id) then Halt(n, NotOwnVote)
    else
      var o1 := Propose(n.(role := Leader(NewProgress(n), map[], [], 0)), None);
      var o2 := MaybeCommit(o1.node);
      var o3 := SendHeartbeats(o2.node);
      Join(Join(o1, o2), o3)
  }

  ghost function StepCandidate(n: Node, e: Envelope): Out
    requires n.role.Candidate?
  {
    match e.message
    case CampaignResponse(vote) =>
      if !vote then Quiet(n)
      else
        var n' := n.(role := Candidate(n.role.votes + {e.from}));
        if |n'.role.votes| >= QuorumSize(n) then BecomeLeader(n') else Quiet(n')
    case Campaign(_, _) => Out(n, {Mail(n, e.from, CampaignResponse(false))})
    case Heartbeat(_, _, _) => StepFollower(n.(role := Follower(Some(e.from), {})), e)
    case Append(_, _, _) => StepFollower(n.(role := Follower(Some(e.from), {})), e)
    case Read(_) => StepFollower(n.(role := Follower(Some(e.from), {})), e)
    case ClientRequest(id, _) => Out(n, {Mail(n, e.from, ClientResponse(id, Abort))})
    case _ => Halt(n, UnexpectedMessage)
  }

  // ---------------------------------------------------------------- leader

  function AdvanceMatch(p: Progress, matchIndex: Index): Progress {
    if matchIndex <= p.matchIndex then p
    else Progress(matchIndex, if p.nextIndex >= matchIndex + 1 then p.nextIndex else matchIndex + 1, p.readSeq)
  }

  function AdvanceRead(p: Progress, readSeq: nat): Progress {
    if readSeq <= p.readSeq then p else p.(readSeq := readSeq)
  }

  function RegressNext(p: Progress, nextIndex: Index): Progress {
    if nextIndex >= p.nextIndex || p.nextIndex <= p.matchIndex + 1 then p
    else p.(nextIndex := if nextIndex >= p.matchIndex + 1 then nextIndex else p.matchIndex + 1)
  }

  /** The four progress assertions of `maybe_send_append`. */
  predicate ProgressValid(p: Progress, lastIndex: Index) {
    && p.nextIndex != 0
    && p.nextIndex > p.matchIndex
    && p.matchIndex <= lastIndex
    && p.nextIndex <= lastIndex + 1
  }

  /** What `maybe_send_append` decides for one peer: new progress, and a message if any. */
  datatype Plan = Plan(progress: Progress, message: Option<Message>)

  function PlanAppend(entries: seq<Entry>, p: Progress, probe: bool, maxAppend: nat): Plan
    requires ProgressValid(p, |entries|)
  {
    var probing := probe && p.nextIndex > p.matchIndex + 1;
    if p.matchIndex == |entries| then Plan(p, None)
    else if p.nextIndex > |entries| && !probing then Plan(p, None)
    else
      var base := p.nextIndex - 1;
      var es := if probing then [] else Between(entries, base, base + maxAppend);
      Plan(if es == [] then p else p.(nextIndex := es[|es| - 1].index + 1),
           Some(Append(base, TermAt(entries, base), es)))
  }

  function Posted(n: Node, to: NodeID, m: Option<Message>): set<Envelope> {
    if m.None? then {} else {Mail(n, to, m.value)}
  }

  function WithProgress(n: Node, peer: NodeID, p: Progress): Node
    requires n.role.Leader?
  {
    n.(role := n.role.(progress := n.role.progress[peer := p]))
  }

  function SendAppend(n: Node, peer: NodeID, probe: bool): Out
    requires n.role.Leader?
  {
    if peer !in n.role.progress then Halt(n, UnknownNode)
    else if !ProgressValid(n.role.progress[peer], |n.log.entries|) then Halt(n, InvalidProgress)
    else
      var plan := PlanAppend(n.log.entries, n.role.progress[peer], probe, n.maxAppend);
      Out(WithProgress(n, peer, plan.progress), Posted(n, peer, plan.message))
  }

  /** After a proposal at the last index: send it to every peer that is caught up to it. */
  function Due(n: Node, peer: NodeID): bool
    requires n.role.Leader?
  {
    peer in n.peers && peer in n.role.progress && n.role.progress[peer].nextIndex == |n.log.entries|
  }

  function Propose(n: Node, command: Option<Command>): Out
    requires n.role.Leader?
  {
    match RaftLog.Append(n.log, command)
    case Failed(p) => Halt(n, p)
    case Done(log) =>
      var n' := n.(log := log);
      if !(n.peers <= n.role.progress.Keys) then Halt(n', UnknownNode)
      else if exists p :: p in n.peers && Due(n', p) && !ProgressValid(n'.role.progress[p], |log.entries|)
        then Halt(n', InvalidProgress)
      else
        var plans := map p | p in n.role.progress && Due(n', p) ::
          PlanAppend(log.entries, n.role.progress[p], false, n.maxAppend);
        Out(n'.(role := n'.role.(progress := map p | p in n.role.progress ::
                  if p in plans then plans[p].progress else n.role.progress[p])),
            set p | p in plans && plans[p].message.Some? :: Mail(n', p, plans[p].message.value))
  }

  function SendHeartbeats(n: Node): Out {
    if !n.role.Leader? then Quiet(n)
    else if LastTerm(n.log.entries) != n.log.term then Halt(n, LastTermStale)
    else Out(n, Broadcast(n, Heartbeat(|n.log.entries|, n.log.commitIndex, n.role.readSeq)))
  }

  ghost function MatchTable(n: Node): map<NodeID, nat>
    requires n.role.Leader?
  {
    (map p | p in n.role.progress :: n.role.progress[p].matchIndex)[n.id := |n.log.entries|]
  }

  ghost function ReadTable(n: Node): map<NodeID, nat>
    requires n.role.Leader?
  {
    (map p | p in n.role.progress :: n.role.progress[p].readSeq)[n.id := n.role.readSeq]
  }

  /** `quorum_value` asserts that there is one value per node of the cluster. */
  ghost predicate TableFits(n: Node) {
    n.role.Leader? && n.role.progress.Keys == n.peers && n.id !in n.peers
  }

  /** The number of reads at the front of the queue confirmed up to `confirmed`. */
  function ReadyReads(queue: seq<PendingRead>, confirmed: nat): (k: nat)
    ensures k <= |queue|
    ensures forall i :: 0 <= i < k ==> queue[i].readSeq <= confirmed
    ensures k < |queue| ==> queue[k].readSeq > confirmed
  {
    if queue == [] || queue[0].readSeq > confirmed then 0 else 1 + ReadyReads(queue[1..], confirmed)
  }

  lemma TableSize(n: Node)
    requires TableFits(n)
    ensures 1 <= QuorumSize(n) <= |MatchTable(n)| == |ReadTable(n)|
  {
    assert MatchTable(n).Keys == n.peers + {n.id} == ReadTable(n).Keys;
  }

  /** The answers to the first `k` queued reads. */
  ghost function Answered(n: Node, queue: seq<PendingRead>, k: nat): set<Envelope>
    requires k <= |queue|
  {
    set i | 0 <= i < k :: Mail(n, queue[i].from, ClientResponse(queue[i].id, ReadAnswer(queue[i].command, n.applied)))
  }

  ghost function MaybeRead(n: Node): Out {
    if !n.role.Leader? || n.role.queue == [] then Quiet(n)
    else if n.log.commitTerm < n.log.term || |n.applied| < n.log.commitIndex then Quiet(n)
    else if !TableFits(n) then Halt(n, UnknownNode)
    else
      TableSize(n);
      var queue := n.role.queue;
      var k := ReadyReads(queue, QuorumValue(ReadTable(n), QuorumSize(n)));
      Out(n.(role := n.role.(queue := queue[k..])), Answered(n, queue, k))
  }

  /** What `maybe_read` comes to for a leader whose table fits. */
  lemma ReadsMean(n: Node)
    requires n.role.Leader? ==> TableFits(n)
    ensures (!n.role.Leader? || n.role.queue == [] || n.log.commitTerm < n.log.term || |n.applied| < n.log.commitIndex)
      ==> MaybeRead(n) == Quiet(n)
    ensures (n.role.Leader? && n.role.queue != []
             && n.log.commitTerm >= n.log.term && |n.applied| >= n.log.commitIndex) ==>
      && 1 <= QuorumSize(n) <= |ReadTable(n)|
      && var k := ReadyReads(n.role.queue, QuorumValue(ReadTable(n), QuorumSize(n)));
         MaybeRead(n) == Out(n.(role := n.role.(queue := n.role.queue[k..])), Answered(n, n.role.queue, k))
  {
    hide QuorumValue, ReadyReads;
    if n.role.Leader? { TableSize(n); }
  }

  /** Applies committed entries as leader, answering the writes they came from. */
  function ApplyAndAnswer(n: Node): Out
    requires n.role.Leader?
  {
    var todo := Between(n.log.entries, |n.applied|, n.log.commitIndex);
    var writes := n.role.writes;
    Out(n.(applied := n.applied + todo,
           role := n.role.(writes := map i | i in writes && !(|n.applied| < i <= |n.applied| + |todo|) :: writes[i])),
        set i | i in writes && |n.applied| < i <= |n.applied| + |todo| ::
          Mail(n, writes[i].from, ClientResponse(writes[i].id,
            WriteAnswer(n.applied + todo[..i - |n.applied|]))))
  }

  ghost function MaybeCommit(n: Node): Out {
    if !n.role.Leader? then Quiet(n)
    else if !TableFits(n) then Halt(n, UnknownNode)
    else
      TableSize(n);
      var index := QuorumValue(MatchTable(n), QuorumSize(n));
      if index <= n.log.commitIndex then Quiet(n)
      else if index > |n.log.entries| then Halt(n, CommitMissing)
      else if n.log.entries[index - 1].term != n.log.term then Quiet(n)
      else
        match Commit(n.log, index)
        case Failed(p) => Halt(n, p)
        case Done(log) =>
          var o1 := ApplyAndAnswer(n.(log := log));
          if n.log.commitTerm != n.log.term then Join(o1, MaybeRead(o1.node)) else o1
  }

  /** What `maybe_commit_and_apply` comes to for a leader whose table fits. */
  lemma CommitMeans(n: Node)
    requires n.role.Leader? ==> TableFits(n)
    ensures !n.role.Leader? ==> MaybeCommit(n) == Quiet(n)
    ensures n.role.Leader? ==>
      && 1 <= QuorumSize(n) <= |MatchTable(n)|
      && var index := QuorumValue(MatchTable(n), QuorumSize(n));
         && (index <= n.log.commitIndex ==> MaybeCommit(n) == Quiet(n))
         && (index > n.log.commitIndex && index > |n.log.entries| ==> MaybeCommit(n) == Halt(n, CommitMissing))
         && (n.log.commitIndex < index <= |n.log.entries| ==>
               var e := n.log.entries[index - 1];
               if e.term != n.log.term then MaybeCommit(n) == Quiet(n)
               else
                 && Commit(n.log, index) == Done(n.log.(commitIndex := index, commitTerm := e.term))
                 && var o := ApplyAndAnswer(n.(log := n.log.(commitIndex := index, commitTerm := e.term)));
                    MaybeCommit(n) == if n.log.commitTerm != n.log.term then Join(o, MaybeRead(o.node)) else o)
  {
    hide QuorumValue, ApplyAndAnswer, MaybeRead;
    if n.role.Leader? { TableSize(n); }
  }

  /** Records a confirmed read sequence number, and executes reads if it advances. */
  ghost function ConfirmRead(n: Node, from: NodeID, readSeq: nat): Out
    requires n.role.Leader?
  {
    if from !in n.role.progress then Halt(n, UnknownNode)
    else
      var p := n.role.progress[from];
      if readSeq <= p.readSeq then Quiet(n) else MaybeRead(WithProgress(n, from, AdvanceRead(p, readSeq)))
  }

  /** Records a match index, and commits if it advances. */
  ghost function ConfirmMatch(n: Node, from: NodeID, matchIndex: Index): Out {
    if !n.role.Leader? then Quiet(n)
    else if from !in n.role.progress then Halt(n, UnknownNode)
    else
      var p := n.role.progress[from];
      if matchIndex <= p.matchIndex then Quiet(n) else MaybeCommit(WithProgress(n, from, AdvanceMatch(p, matchIndex)))
  }

  /** Moves next_index back, then probes. */
  function Probe(n: Node, from: NodeID, nextIndex: Index): Out {
    if !n.role.Leader? then Quiet(n)
    else if from !in n.role.progress then Halt(n, UnknownNode)
    else SendAppend(WithProgress(n, from, RegressNext(n.role.progress[from], nextIndex)), from, true)
  }

  ghost function OnHeartbeatResponse(n: Node, from: NodeID, matchIndex: Index, readSeq: nat): Out
    requires n.role.Leader?
  {
    if matchIndex > |n.log.entries| then Halt(n, FutureMatch)
    else if readSeq > n.role.readSeq then Halt(n, FutureReadSeq)
    else
      var o1 := ConfirmRead(n, from, readSeq);
      var o2 := if matchIndex == 0 then Probe(o1.node, from, |n.log.entries|) else Quiet(o1.node);
      var o3 := ConfirmMatch(o2.node, from, matchIndex);
      Join(Join(o1, o2), o3)
  }

  ghost function OnAppendResponse(n: Node, from: NodeID, matchIndex: Index, rejectIndex: Index): Out
    requires n.role.Leader?
  {
    if rejectIndex == 0 && matchIndex > 0 then
      if matchIndex > |n.log.entries| then Halt(n, FutureMatch)
      else
        var o1 := ConfirmMatch(n, from, matchIndex);
        var o2 := if o1.node.role.Leader? then SendAppend(o1.node, from, false) else Quiet(o1.node);
        Join(o1, o2)
    else if matchIndex == 0 && rejectIndex > 0 then
      if rejectIndex > |n.log.entries| then Halt(n, FutureReject)
      else if from !in n.role.progress then Halt(n, UnknownNode)
      else
        var p := n.role.progress[from];
        if rejectIndex <= p.matchIndex then Quiet(n)
        else if RegressNext(p, rejectIndex) == p then Quiet(n)
        else Probe(n, from, rejectIndex)
    else Halt(n, InvalidAppendResponse)
  }

  ghost function OnWrite(n: Node, from: NodeID, id: RequestID, command: Command): Out
    requires n.role.Leader?
  {
    var o1 := Propose(n, Some(command));
    if !o1.node.role.Leader? then o1
    else
      var n1 := o1.node.(role := o1.node.role.(
        writes := o1.node.role.writes[|o1.node.log.entries| := PendingWrite(from, id)]));
      var o2 := if ClusterSize(n1) == 1 then MaybeCommit(n1) else Quiet(n1);
      Join(o1, o2)
  }

  function AcceptRead(n: Node, from: NodeID, id: RequestID, command: Command): Out
    requires n.role.Leader?
  {
    var readSeq := n.role.readSeq + 1;
    var n' := n.(role := n.role.(
      readSeq := readSeq,
      queue := n.role.queue + [PendingRead(readSeq, from, id, command)]));
    Out(n', Broadcast(n', Read(readSeq)))
  }

  ghost function OnRead(n: Node, from: NodeID, id: RequestID, command: Command): Out
    requires n.role.Leader?
  {
    var o1 := AcceptRead(n, from, id, command);
    if ClusterSize(n) == 1 then Join(o1, MaybeRead(o1.node)) else o1
  }

  ghost function StepLeader(n: Node, e: Envelope): Out
    requires n.role.Leader?
  {
    match e.message
    case HeartbeatResponse(matchIndex, readSeq) => OnHeartbeatResponse(n, e.from, matchIndex, readSeq)
    case AppendResponse(matchIndex, rejectIndex) => OnAppendResponse(n, e.from, matchIndex, rejectIndex)
    case ReadResponse(readSeq) => ConfirmRead(n, e.from, readSeq)
    case ClientRequest(id, request) =>
      (match request
       case WriteRequest(command) => OnWrite(n, e.from, id, command)
       case ReadRequest(command) => OnRead(n, e.from, id, command)
       case StatusRequest =>
         Out(n, {Mail(n, e.from, ClientResponse(id,
           StatusAnswer(MatchTable(n), n.log.commitIndex, |n.applied|)))}))
    case Campaign(_, _) => Out(n, {Mail(n, e.from, CampaignResponse(false))})
    case CampaignResponse(_) => Quiet(n)
    case Heartbeat(_, _, _) => Halt(n, SawOtherLeader)
    case Append(_, _, _) => Halt(n, SawOtherLeader)
    case Read(_) => Halt(n, SawOtherLeader)
    case ClientResponse(_, _) => Halt(n, UnexpectedMessage)
  }

  // ---------------------------------------------------------------- node

  /** Processes an inbound message of the node's own term. */
  ghost function StepRole(n: Node, e: Envelope): Out {
    match n.role
    case Follower(_, _) => StepFollower(n, e)
    case Candidate(_) => StepCandidate(n, e)
    case Leader(_, _, _, _) => StepLeader(n, e)
    case Halted(_) => Quiet(n)
  }

  /** Processes an inbound message. */
  ghost function Step(n: Node, e: Envelope): Out {
    if n.role.Halted? then Quiet(n)
    else if e.from !in n.peers && e.from != n.id then Halt(n, UnknownSender)
    else if e.term < n.log.term then Quiet(n)
    else if e.term > n.log.term then
      var o := EnterTerm(n, e.term);
      Join(o, StepRole(o.node, e))
    else StepRole(n, e)
  }

  /** A tick on which a timer fires: election timeout, or heartbeat interval. */
  function Tick(n: Node): Out {
    match n.role
    case Follower(_, _) => BecomeCandidate(n)
    case Candidate(_) => HoldElection(n)
    case Leader(_, _, _, _) => SendHeartbeats(n)
    case Halted(_) => Quiet(n)
  }

  /** Starts a node on a stored log and state machine: `Node::new`. */
  ghost function Start(id: NodeID, peers: set<NodeID>, maxAppend: nat, log: Log, applied: seq<Entry>): Out {
    var n := MaybeApply(Node(id, peers, maxAppend, log, applied, Follower(None, {})));
    if ClusterSize(n) == 1 then
      var o := BecomeCandidate(n);
      Join(o, BecomeLeader(o.node))
    else Quiet(n)
  }
}
