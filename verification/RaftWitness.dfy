/**
 * Runs of a two-node cluster: a leader is elected, a write is replicated and committed, a read is confirmed and
 * answered on it; and each of the panics that a restart allows does occur.
 */
module RaftWitness {
  import opened Common
  import opened RaftLog
  import opened RaftNode
  import opened RaftInvariant
  import opened RaftCluster
  import opened RaftRuns
  import opened RaftHistory
  import opened RaftFollower
  import opened RaftLeader
  import opened RaftStep
  import RaftDecisions
  import RaftQuorum

  // ---------------------------------------------------------------- two nodes in term 1

  /** The log of a node that voted for `vote` in term 1, with the first entries committed. */
  function Voted(vote: NodeID, entries: seq<Entry>, commitIndex: Index): Log {
    Log(1, Some(vote), entries, commitIndex, if commitIndex == 0 then 0 else 1)
  }

  /** Node `a` leads term 1, and has committed and applied `applied`. */
  function Leading(a: NodeID, b: NodeID, m: nat, entries: seq<Entry>, applied: seq<Entry>, peer: Progress,
                   writes: map<Index, PendingWrite>, queue: seq<PendingRead>, readSeq: nat): Node {
    Node(a, {b}, m, Voted(a, entries, |applied|), applied, Leader(map[b := peer], writes, queue, readSeq))
  }

  /** Node `b` voted for `a` in term 1. */
  function Following(b: NodeID, a: NodeID, m: nat, entries: seq<Entry>, leader: Option<NodeID>,
    forwarded: set<RequestID>): Node {
    Node(b, {a}, m, Voted(a, entries, 0), [], Follower(leader, forwarded))
  }

  function Noop(): Entry { Entry(1, 1, None) }

  function Written(w: Command): Entry { Entry(2, 1, Some(w)) }

  // ---------------------------------------------------------------- what each node does

  lemma Campaigns(a: NodeID, b: NodeID, m: nat)
    ensures Tick(Node(a, {b}, m, EMPTY_LOG, [], Follower(None, {})))
         == Out(Node(a, {b}, m, Voted(a, [], 0), [], Candidate({a})), {Envelope(a, 1, b, Campaign(0, 0))})
  {
    var n := Node(a, {b}, m, EMPTY_LOG, [], Follower(None, {}));
    assert MaybeApply(n) == n;
  }

  lemma Votes(a: NodeID, b: NodeID, m: nat)
    ensures Step(Node(b, {a}, m, EMPTY_LOG, [], Follower(None, {})), Envelope(a, 1, b, Campaign(0, 0)))
         == Out(Following(b, a, m, [], None, {}), {Envelope(b, 1, a, CampaignResponse(true))})
  {
    var n := Node(b, {a}, m, EMPTY_LOG, [], Follower(None, {}));
    assert EnterTerm(n, 1) == Quiet(n.(log := EMPTY_LOG.(term := 1)));
  }

  /** With two nodes, the quorum value is the smaller one. */
  lemma QuorumPair(a: NodeID, b: NodeID, x: nat, y: nat)
    requires a != b && x <= y
    ensures QuorumValue(map[b := x][a := y], 2) == x
  {
    var m := map[b := x][a := y];
    assert AtLeast(m, x) == {a, b} && m[b] == x && x in m.Values;
    SubsetSize(AtLeast(m, x + 1), {a});
    RaftQuorum.QuorumValueUnique(m, 2, x, QuorumValue(m, 2));
  }

  /** A leader sends what it appends to a peer that has been sent everything before. */
  lemma Proposes(n: Node, a: NodeID, b: NodeID, command: Option<Command>)
    requires n.id == a && n.peers == {b} && n.role.Leader? && n.role.progress.Keys == {b} && n.log.term > 0
    requires n.maxAppend >= 1
    requires n.role.progress[b].matchIndex <= |n.log.entries| && n.role.progress[b].nextIndex == |n.log.entries| + 1
    ensures var l := |n.log.entries|;
      var e := Entry(l + 1, n.log.term, command);
      Propose(n, command) == Out(
        WithProgress(n, b, n.role.progress[b].(nextIndex := l + 2)).(log := n.log.(entries := n.log.entries + [e])),
        {Mail(n, b, Append(l, TermAt(n.log.entries, l), [e]))})
  {
    var l := |n.log.entries|;
    var e := Entry(l + 1, n.log.term, command);
    var entries := n.log.entries + [e];
    var n' := n.(log := n.log.(entries := entries));
    var p := n.role.progress[b];
    assert Due(n', b);
    RaftDecisions.PlansLast(n.log.entries, e, p, n.maxAppend);
    hide PlanAppend, TermAt, ProgressValid;
    ProposesTo(n, b, command, Plan(p.(nextIndex := l + 2), Some(Append(l, TermAt(n.log.entries, l), [e]))));
  }

  /** With one peer that is due, a proposal is what is planned for it. */
  lemma ProposesTo(n: Node, b: NodeID, command: Option<Command>, plan: Plan)
    requires n.peers == {b} && n.role.Leader? && n.role.progress.Keys == {b} && n.log.term > 0 && plan.message.Some?
    requires var n' := n.(log := n.log.(entries := n.log.entries + [Entry(|n.log.entries| + 1, n.log.term, command)]));
      && Due(n', b) && ProgressValid(n.role.progress[b], |n'.log.entries|)
      && plan == PlanAppend(n'.log.entries, n.role.progress[b], false, n.maxAppend)
    ensures var n' := n.(log := n.log.(entries := n.log.entries + [Entry(|n.log.entries| + 1, n.log.term, command)]));
      Propose(n, command) == Out(WithProgress(n', b, plan.progress), {Mail(n', b, plan.message.value)})
  {
    hide PlanAppend, ProgressValid, Due;
    var n' := n.(log := n.log.(entries := n.log.entries + [Entry(|n.log.entries| + 1, n.log.term, command)]));
    var o := Propose(n, command);
    assert o.node.role.progress == n.role.progress[b := plan.progress];
    assert o.sent == {Mail(n', b, plan.message.value)};
  }

  lemma Wins(a: NodeID, b: NodeID, m: nat)
    requires a != b && m >= 1
    ensures var o :=
      Step(Node(a, {b}, m, Voted(a, [], 0), [], Candidate({a})), Envelope(b, 1, a, CampaignResponse(true)));
      && o.node == Leading(a, b, m, [Noop()], [], Progress(0, 2, 0), map[], [], 0)
      && Envelope(a, 1, b, Append(0, 0, [Noop()])) in o.sent
  {
    hide BecomeLeader;
    var candidate := Node(a, {b}, m, Voted(a, [], 0), [], Candidate({a}));
    assert {a} + {b} == {a, b} && |{a, b}| == 2 && |{b}| == 1;
    var n := candidate.(role := Candidate({a} + {b}));
    Crowns(n, a, b, m);
    assert StepCandidate(candidate, Envelope(b, 1, a, CampaignResponse(true))) == BecomeLeader(n);
  }

  lemma Crowns(n: Node, a: NodeID, b: NodeID, m: nat)
    requires a != b && m >= 1 && n == Node(a, {b}, m, Voted(a, [], 0), [], n.role)
    ensures var o := BecomeLeader(n);
      && o.node == Leading(a, b, m, [Noop()], [], Progress(0, 2, 0), map[], [], 0)
      && Envelope(a, 1, b, Append(0, 0, [Noop()])) in o.sent
  {
    hide MaybeCommit, Propose, QuorumValue, Broadcast;
    assert NewProgress(n) == map[b := Progress(0, 1, 0)];
    var start := n.(role := Leader(NewProgress(n), map[], [], 0));
    Proposes(start, a, b, None);
    var leader := Leading(a, b, m, [Noop()], [], Progress(0, 2, 0), map[], [], 0);
    assert [] + [Noop()] == [Noop()];
    assert map[b := Progress(0, 1, 0)][b := Progress(0, 2, 0)] == map[b := Progress(0, 2, 0)];
    assert Propose(start, None).node == leader;
    NothingToCommit(leader, a, b);
  }

  /** Two nodes: the leader, and the peer it follows the progress of. */
  predicate Pair(n: Node, a: NodeID, b: NodeID) {
    a != b && n.id == a && n.peers == {b} && n.role.Leader? && n.role.progress.Keys == {b}
  }

  lemma PairMatch(n: Node, a: NodeID, b: NodeID)
    requires Pair(n, a, b) && n.role.progress[b].matchIndex <= |n.log.entries|
    ensures TableFits(n) && 1 <= QuorumSize(n) <= |MatchTable(n)|
    ensures QuorumValue(MatchTable(n), QuorumSize(n)) == n.role.progress[b].matchIndex
  {
    hide QuorumValue, MatchTable, ReadTable;
    PairTables(n, a, b);
    QuorumPair(a, b, n.role.progress[b].matchIndex, |n.log.entries|);
  }

  lemma PairTables(n: Node, a: NodeID, b: NodeID)
    requires Pair(n, a, b)
    ensures TableFits(n) && QuorumSize(n) == 2 == |MatchTable(n)| == |ReadTable(n)|
    ensures MatchTable(n) == map[b := n.role.progress[b].matchIndex][a := |n.log.entries|]
    ensures ReadTable(n) == map[b := n.role.progress[b].readSeq][a := n.role.readSeq]
  {
    assert |{b}| == 1;
    assert MatchTable(n).Keys == {a, b} == ReadTable(n).Keys && |{a, b}| == 2;
  }

  lemma PairRead(n: Node, a: NodeID, b: NodeID)
    requires Pair(n, a, b) && n.role.progress[b].readSeq <= n.role.readSeq
    ensures TableFits(n) && 1 <= QuorumSize(n) <= |ReadTable(n)|
    ensures QuorumValue(ReadTable(n), QuorumSize(n)) == n.role.progress[b].readSeq
  {
    hide QuorumValue, MatchTable, ReadTable;
    PairTables(n, a, b);
    QuorumPair(a, b, n.role.progress[b].readSeq, n.role.readSeq);
  }

  lemma NothingToCommit(n: Node, a: NodeID, b: NodeID)
    requires Pair(n, a, b) && n.role.progress[b].matchIndex == 0
    ensures MaybeCommit(n) == Quiet(n)
  {
    hide MaybeCommit, QuorumValue, MatchTable, QuorumSize, ApplyAndAnswer, MaybeRead;
    PairMatch(n, a, b);
    CommitMeans(n);
  }

  lemma Writes(a: NodeID, b: NodeID, m: nat, w: Command)
    requires a != b && m >= 1
    ensures var n := Leading(a, b, m, [Noop()], [], Progress(0, 2, 0), map[], [], 0);
      Step(n, Submit(n, 0, WriteRequest(w)))
      == Out(Leading(a, b, m, [Noop(), Written(w)], [], Progress(0, 3, 0), map[2 := PendingWrite(a, 0)], [], 0),
             {Envelope(a, 1, b, Append(1, 1, [Written(w)]))})
  {
    hide Propose, MaybeCommit;
    var n := Leading(a, b, m, [Noop()], [], Progress(0, 2, 0), map[], [], 0);
    Proposes(n, a, b, Some(w));
    assert [Noop()] + [Written(w)] == [Noop(), Written(w)];
    assert map[b := Progress(0, 2, 0)][b := Progress(0, 3, 0)] == map[b := Progress(0, 3, 0)];
    assert |{b}| == 1;
    assert StepLeader(n, Submit(n, 0, WriteRequest(w))) == OnWrite(n, a, 0, WriteRequest(w).command);
  }

  /** A follower stores the next entry. */
  lemma Stores(a: NodeID, b: NodeID, m: nat, entries: seq<Entry>, leader: Option<NodeID>, e: Entry)
    requires a != b && leader in {None, Some(a)} && e.index == |entries| + 1 && e.term == 1
    requires entries == [] || entries[|entries| - 1].term == 1
    ensures Step(Following(b, a, m, entries, leader, {}), Envelope(a, 1, b, Append(|entries|, LastTerm(entries), [e])))
         == Out(Following(b, a, m, entries + [e], Some(a), {}), {Envelope(b, 1, a, AppendResponse(|entries| + 1, 0))})
  {
    hide Splice;
    var n := Following(b, a, m, entries, leader, {});
    assert HearLeader(n, a) == Quiet(Following(b, a, m, entries, Some(a), {}));
    Splices(n.log, e);
  }

  lemma Splices(log: Log, e: Entry)
    requires e.index == |log.entries| + 1 && 0 < e.term <= log.term && log.commitIndex <= |log.entries|
    requires LastTerm(log.entries) <= e.term
    ensures Splice(log, [e]) == Done(log.(entries := log.entries + [e]))
  {
    assert Stored(log.entries, [e]) == 0;
    assert Between(log.entries, 0, |log.entries|) == log.entries;
    assert [e][0..] == [e];
  }

  lemma Commits(a: NodeID, b: NodeID, m: nat, w: Command)
    requires a != b
    ensures var es := [Noop(), Written(w)];
      Step(Leading(a, b, m, es, [], Progress(0, 3, 0), map[2 := PendingWrite(a, 0)], [], 0),
           Envelope(b, 1, a, AppendResponse(2, 0))).node
      == Leading(a, b, m, es, es, Progress(2, 3, 0), map[], [], 0)
  {
    hide MaybeCommit;
    var es := [Noop(), Written(w)];
    var n := Leading(a, b, m, es, [], Progress(0, 3, 0), map[2 := PendingWrite(a, 0)], [], 0);
    var n1 := WithProgress(n, b, Progress(2, 3, 0));
    var leader := Leading(a, b, m, es, es, Progress(2, 3, 0), map[], [], 0);
    assert map[b := Progress(0, 3, 0)][b := Progress(2, 3, 0)] == map[b := Progress(2, 3, 0)];
    CommitsPair(n1, a, b, es, leader);
    assert leader.role.progress[b := Progress(2, 3, 0)] == leader.role.progress;
    assert SendAppend(leader, b, false) == Quiet(leader);
  }

  lemma CommitsPair(n: Node, a: NodeID, b: NodeID, es: seq<Entry>, leader: Node)
    requires Pair(n, a, b) && n.log == Voted(a, es, 0) && n.applied == [] && |es| == 2 && es[1].term == 1
    requires n.role.progress[b].matchIndex == 2 && n.role.writes.Keys == {2} && n.role.queue == []
    requires leader == n.(log := Voted(a, es, 2), applied := es, role := n.role.(writes := map[]))
    ensures MaybeCommit(n).node == leader
  {
    hide MaybeCommit, QuorumValue, MatchTable, QuorumSize, ApplyAndAnswer, MaybeRead;
    PairMatch(n, a, b);
    CommitMeans(n);
    Applies(n.(log := Voted(a, es, 2)), es);
    ReadsMean(leader);
  }

  lemma Applies(n: Node, es: seq<Entry>)
    requires n.role.Leader? && n.log.entries == es && n.log.commitIndex == 2 == |es| && n.applied == []
    requires n.role.writes.Keys == {2}
    ensures ApplyAndAnswer(n).node == n.(applied := es, role := n.role.(writes := map[]))
  {
    assert Between(es, 0, 2) == es && [] + es == es;
    assert ApplyAndAnswer(n).node.role.writes == map[];
  }

  lemma Accepts(a: NodeID, b: NodeID, m: nat, es: seq<Entry>, r: Command)
    requires a != b
    ensures var n := Leading(a, b, m, es, es, Progress(2, 3, 0), map[], [], 0);
      Step(n, Submit(n, 1, ReadRequest(r)))
      == Out(Leading(a, b, m, es, es, Progress(2, 3, 0), map[], [PendingRead(1, a, 1, r)], 1),
             {Envelope(a, 1, b, Read(1))})
  {
    hide MaybeRead;
    var n := Leading(a, b, m, es, es, Progress(2, 3, 0), map[], [], 0);
    assert [] + [PendingRead(1, a, 1, r)] == [PendingRead(1, a, 1, r)];
    assert |{b}| == 1;
    assert StepLeader(n, Submit(n, 1, ReadRequest(r))) == OnRead(n, a, 1, r);
  }

  lemma Confirms(a: NodeID, b: NodeID, m: nat, es: seq<Entry>)
    requires a != b
    ensures var n := Following(b, a, m, es, Some(a), {});
      Step(n, Envelope(a, 1, b, Read(1))) == Out(n, {Envelope(b, 1, a, ReadResponse(1))})
  {}

  lemma Answers(a: NodeID, b: NodeID, m: nat, es: seq<Entry>, r: Command)
    requires a != b && es != []
    ensures var o := Step(Leading(a, b, m, es, es, Progress(2, 3, 0), map[], [PendingRead(1, a, 1, r)], 1),
                          Envelope(b, 1, a, ReadResponse(1)));
      && o.node == Leading(a, b, m, es, es, Progress(2, 3, 1), map[], [], 1)
      && Envelope(a, 1, a, ClientResponse(1, ReadAnswer(r, es))) in o.sent
  {
    hide MaybeRead;
    var read := PendingRead(1, a, 1, r);
    var n := Leading(a, b, m, es, es, Progress(2, 3, 0), map[], [read], 1);
    var n1 := Leading(a, b, m, es, es, Progress(2, 3, 1), map[], [read], 1);
    assert map[b := Progress(2, 3, 0)][b := Progress(2, 3, 1)] == map[b := Progress(2, 3, 1)];
    AnswersPair(n1, a, b, read);
  }

  lemma AnswersPair(n: Node, a: NodeID, b: NodeID, read: PendingRead)
    requires Pair(n, a, b) && n.role.progress[b].readSeq == 1 == n.role.readSeq && n.role.queue == [read]
    requires read.readSeq == 1
    requires n.log.commitTerm == n.log.term && |n.applied| == n.log.commitIndex
    ensures var o := MaybeRead(n);
      && o.node == n.(role := n.role.(queue := []))
      && Mail(n, read.from, ClientResponse(read.id, ReadAnswer(read.command, n.applied))) in o.sent
  {
    hide MaybeRead, QuorumValue, ReadTable, QuorumSize, ReadyReads;
    PairRead(n, a, b);
    ReadsMean(n);
    OneReady(read);
    assert [read][1..] == [];
    var queue := [read];
    var answer := ClientResponse(queue[0].id, ReadAnswer(queue[0].command, n.applied));
    assert Mail(n, queue[0].from, answer) in Answered(n, queue, 1);
  }

  lemma OneReady(read: PendingRead)
    requires read.readSeq == 1
    ensures ReadyReads([read], 1) == 1
  {
    assert [read][1..] == [];
  }

  // ---------------------------------------------------------------- runs, one step at a time

  /** The run ends with these two nodes. */
  ghost predicate Ends(run: Run, a: NodeID, b: NodeID, x: Node, y: Node) {
    a != b && run.Valid() && run.states != [] && Last(run).nodes == map[a := x, b := y]
  }

  /** One of the two nodes takes a message from the network. */
  lemma Receives(run: Run, a: NodeID, b: NodeID, x: Node, y: Node, e: Envelope, o: Out) returns (run': Run)
    requires Ends(run, a, b, x, y) && e in Last(run).net && (e.to == a || e.to == b) && e.from != e.to
    requires o == Step(if e.to == a then x else y, e)
    ensures Ends(run', a, b, if e.to == a then o.node else x, if e.to == a then y else o.node)
    ensures Last(run').net == Last(run).net + o.sent
  {
    hide Run.Valid, Step;
    run' := Then(run, Deliver(e), o);
  }

  lemma Asks(run: Run, a: NodeID, b: NodeID, x: Node, y: Node, at: NodeID, id: RequestID, request: Request, o: Out)
    returns (run': Run)
    requires Ends(run, a, b, x, y) && (at == a || at == b)
    requires var n := if at == a then x else y; o == Step(n, Submit(n, id, request))
    ensures Ends(run', a, b, if at == a then o.node else x, if at == a then y else o.node)
    ensures Last(run').net == Last(run).net + o.sent
  {
    hide Run.Valid, Step;
    run' := Then(run, Client(at, id, request), o);
  }

  // ---------------------------------------------------------------- a run that serves a client

  lemma Begins(a: NodeID, b: NodeID, m: nat) returns (run: Run)
    requires a != b && m >= 1
    ensures Ends(run, a, b, Node(a, {b}, m, EMPTY_LOG, [], Follower(None, {})),
      Node(b, {a}, m, EMPTY_LOG, [], Follower(None, {})))
  {
    hide Start, Started;
    var ids := {a, b};
    assert ids - {a} == {b} && ids - {b} == {a};
    var c := Cluster(map[a := Blank(a, ids, m), b := Blank(b, ids, m)], {});
    assert c.nodes.Keys == ids;
    assert Started(c, m, a) by { StartsBlank(c, m, a); }
    assert Started(c, m, b) by { StartsBlank(c, m, b); }
    run := Run(m, [c], []);
  }

  lemma StartsBlank(c: Cluster, m: nat, p: NodeID)
    requires p in c.nodes && |c.nodes.Keys| > 1 && c.nodes[p] == Blank(p, c.nodes.Keys, m)
    ensures Started(c, m, p)
  {
    hide Start, Blank;
    StartMany(p, c.nodes.Keys, m);
  }

  lemma Elects(a: NodeID, b: NodeID, m: nat) returns (run: Run)
    requires a != b && m >= 1
    ensures Ends(run, a, b, Leading(a, b, m, [Noop()], [], Progress(0, 2, 0), map[], [], 0),
      Following(b, a, m, [], None, {}))
    ensures Envelope(a, 1, b, Append(0, 0, [Noop()])) in Last(run).net
  {
    hide Step, Tick, Run.Valid;
    run := Begins(a, b, m);
    Campaigns(a, b, m);
    run := Then(run, Timeout(a), Tick(Node(a, {b}, m, EMPTY_LOG, [], Follower(None, {}))));
    var candidate := Node(a, {b}, m, Voted(a, [], 0), [], Candidate({a}));
    var blank := Node(b, {a}, m, EMPTY_LOG, [], Follower(None, {}));
    Votes(a, b, m);
    var campaign := Envelope(a, 1, b, Campaign(0, 0));
    run := Receives(run, a, b, candidate, blank, campaign, Step(blank, campaign));
    Wins(a, b, m);
    var vote := Envelope(b, 1, a, CampaignResponse(true));
    run := Receives(run, a, b, candidate, Following(b, a, m, [], None, {}), vote, Step(candidate, vote));
  }

  lemma Replicates(a: NodeID, b: NodeID, m: nat, w: Command) returns (run: Run)
    requires a != b && m >= 1
    ensures var es := [Noop(), Written(w)];
      Ends(run, a, b, Leading(a, b, m, es, es, Progress(2, 3, 0), map[], [], 0), Following(b, a, m, es, Some(a), {}))
  {
    hide Step, Run.Valid;
    run := Elects(a, b, m);
    var es := [Noop(), Written(w)];
    var leader := Leading(a, b, m, [Noop()], [], Progress(0, 2, 0), map[], [], 0);
    var f0, f1 := Following(b, a, m, [], None, {}), Following(b, a, m, [Noop()], Some(a), {});
    Writes(a, b, m, w);
    run := Asks(run, a, b, leader, f0, a, 0, WriteRequest(w), Step(leader, Submit(leader, 0, WriteRequest(w))));
    leader := Leading(a, b, m, es, [], Progress(0, 3, 0), map[2 := PendingWrite(a, 0)], [], 0);
    var first, second := Envelope(a, 1, b, Append(0, 0, [Noop()])), Envelope(a, 1, b, Append(1, 1, [Written(w)]));
    Stores(a, b, m, [], None, Noop());
    assert [] + [Noop()] == [Noop()];
    run := Receives(run, a, b, leader, f0, first, Step(f0, first));
    Stores(a, b, m, [Noop()], Some(a), Written(w));
    assert [Noop()] + [Written(w)] == es;
    run := Receives(run, a, b, leader, f1, second, Step(f1, second));
    Commits(a, b, m, w);
    var ack := Envelope(b, 1, a, AppendResponse(2, 0));
    run := Receives(run, a, b, leader, Following(b, a, m, es, Some(a), {}), ack, Step(leader, ack));
  }

  /** The run in which a write has been committed and a read answered. */
  lemma Serves(a: NodeID, b: NodeID, m: nat, w: Command, r: Command) returns (run: Run)
    requires a != b && m >= 1
    ensures var es := [Noop(), Written(w)];
      Ends(run, a, b, Leading(a, b, m, es, es, Progress(2, 3, 1), map[], [], 1), Following(b, a, m, es, Some(a), {}))
    ensures Envelope(a, 1, a, ClientResponse(1, ReadAnswer(r, [Noop(), Written(w)]))) in Last(run).net
    ensures Envelope(b, 1, a, ReadResponse(1)) in Last(run).net
  {
    hide Step, Run.Valid;
    run := Replicates(a, b, m, w);
    var es := [Noop(), Written(w)];
    var leader := Leading(a, b, m, es, es, Progress(2, 3, 0), map[], [], 0);
    var follower := Following(b, a, m, es, Some(a), {});
    Accepts(a, b, m, es, r);
    run := Asks(run, a, b, leader, follower, a, 1, ReadRequest(r), Step(leader, Submit(leader, 1, ReadRequest(r))));
    leader := Leading(a, b, m, es, es, Progress(2, 3, 0), map[], [PendingRead(1, a, 1, r)], 1);
    Confirms(a, b, m, es);
    var read, confirm := Envelope(a, 1, b, Read(1)), Envelope(b, 1, a, ReadResponse(1));
    run := Receives(run, a, b, leader, follower, read, Step(follower, read));
    Answers(a, b, m, es, r);
    run := Receives(run, a, b, leader, follower, confirm, Step(leader, confirm));
  }

  /**
   * In any cluster of two there is a run that elects a leader, commits a write on both nodes' acknowledgement, and
   * answers a read, confirmed by the other node, on a state that holds the write.
   */
  lemma ServingRunExists(a: NodeID, b: NodeID, m: nat, w: Command, r: Command)
    requires a != b && m >= 1
    ensures exists run: Run, k: nat, e: Envelope ::
      && run.Valid() && run.At(k, a) && run.At(k, b) && run.Node(k, a).role.Leader?
      && Written(w) in CommittedPrefix(run.Node(k, a))
      && e in run.states[k].net && e.message.ClientResponse? && e.message.response.ReadAnswer?
      && Written(w) in e.message.response.state
  {
    hide Run.Valid;
    var run := Serves(a, b, m, w, r);
    var es := [Noop(), Written(w)];
    var k := |run.states| - 1;
    assert CommittedPrefix(run.Node(k, a)) == es && es[1] == Written(w);
    var e := Envelope(a, 1, a, ClientResponse(1, ReadAnswer(r, es)));
    assert e in run.states[k].net;
  }

  // ---------------------------------------------------------------- runs that halt

  /** A restarted node follows no one. */
  lemma Restarts(n: Node, peer: NodeID)
    requires n.peers == {peer} && n.log.commitIndex == |n.applied| <= |n.log.entries|
    requires n.applied == n.log.entries[..|n.applied|]
    requires n.log.commitTerm == TermAt(n.log.entries, n.log.commitIndex)
    ensures var d := Durable(n, n.log.commitIndex, |n.applied|);
      Start(d.id, d.peers, d.maxAppend, d.log, d.applied) == Quiet(n.(role := Follower(None, {})))
  {
    hide BecomeCandidate, BecomeLeader;
    assert |{peer}| == 1;
    assert n.applied[..|n.applied|] == n.applied;
    var d := n.(role := Follower(None, {}));
    assert MaybeApply(d) == d;
  }

  lemma Reboots(run: Run, a: NodeID, b: NodeID, x: Node, y: Node, at: NodeID) returns (run': Run)
    requires Ends(run, a, b, x, y) && (at == a || at == b)
    requires var n := if at == a then x else y;
      && n.peers == {if at == a then b else a}
      && n.log.commitIndex == |n.applied| <= |n.log.entries| && n.applied == n.log.entries[..|n.applied|]
      && n.log.commitTerm == TermAt(n.log.entries, n.log.commitIndex)
    ensures var n := if at == a then x else y; var d := n.(role := Follower(None, {}));
      Ends(run', a, b, if at == a then d else x, if at == a then y else d)
    ensures Last(run').net == Last(run).net
  {
    hide Run.Valid, Start, Durable, TermAt;
    var n := if at == a then x else y;
    Restarts(n, if at == a then b else a);
    var action := Restart(at, n.log.commitIndex, |n.applied|);
    assert Enabled(Last(run), action);
    run' := Then(run, action, Effect(Last(run), action));
  }

  /** Some run ends with a node halted by this panic. */
  ghost predicate Occurs(panic: Panic) {
    exists run: Run, k: nat, p: NodeID :: run.Valid() && run.At(k, p) && run.Node(k, p).role == Halted(panic)
  }

  /** The leader restarts, and then gets a response to a message it sent before. */
  lemma LeaderMeetsResponse()
    ensures Occurs(UnexpectedMessage)
  {
    hide Run.Valid, Step;
    var a, b := 0, 1;
    var run := Serves(a, b, 1, [], []);
    var es := [Noop(), Written([])];
    var leader, follower := Leading(a, b, 1, es, es, Progress(2, 3, 1), map[], [], 1),
      Following(b, a, 1, es, Some(a), {});
    run := Reboots(run, a, b, leader, follower, a);
    var restarted := leader.(role := Follower(None, {}));
    var e := Envelope(b, 1, a, ReadResponse(1));
    assert Step(restarted, e).node.role == Halted(UnexpectedMessage) by { HaltsOn(restarted, e); }
    run := Receives(run, a, b, restarted, follower, e, Step(restarted, e));
    assert run.At(|run.states| - 1, a);
  }

  lemma HaltsOn(n: Node, e: Envelope)
    requires n.role.Follower? && n.role.leader.None? && e.from in n.peers && e.from != n.id && e.term == n.log.term
    ensures e.message.ReadResponse? || e.message.HeartbeatResponse? ==> Step(n, e) == Halt(n, UnexpectedMessage)
    ensures e.message.ClientRequest? ==> Step(n, e) == Halt(n, ForeignClientRequest)
    ensures e.message.ClientResponse? ==> Step(n, e) == Halt(n, ResponseFromNonLeader)
  {}

  /** The follower forwards a request to the leader. */
  lemma Forwards() returns (run: Run)
    ensures var es := [Noop(), Written([])];
      Ends(run, 0, 1, Leading(0, 1, 1, es, es, Progress(2, 3, 1), map[], [], 1), Following(1, 0, 1, es, Some(0), {2}))
    ensures Envelope(1, 1, 0, ClientRequest(2, StatusRequest)) in Last(run).net
  {
    hide Run.Valid, Step;
    run := Serves(0, 1, 1, [], []);
    var es := [Noop(), Written([])];
    var leader, follower := Leading(0, 1, 1, es, es, Progress(2, 3, 1), map[], [], 1),
      Following(1, 0, 1, es, Some(0), {});
    var o := Out(Following(1, 0, 1, es, Some(0), {2}), {Envelope(1, 1, 0, ClientRequest(2, StatusRequest))});
    assert Step(follower, Submit(follower, 2, StatusRequest)) == o by { ForwardsTo(follower, 2, StatusRequest); }
    run := Asks(run, 0, 1, leader, follower, 1, 2, StatusRequest, o);
  }

  lemma ForwardsTo(n: Node, id: RequestID, request: Request)
    requires n.role.Follower? && n.role.leader.Some? && n.role.forwarded == {}
    ensures Step(n, Submit(n, id, request))
         == Out(n.(role := Follower(n.role.leader, {id})), {Mail(n, n.role.leader.value, ClientRequest(id, request))})
  {
    assert {} + {id} == {id};
  }

  /** The leader restarts before the forwarded request arrives. */
  lemma LeaderMeetsRequest()
    ensures Occurs(ForeignClientRequest)
  {
    hide Run.Valid, Step;
    var run := Forwards();
    var es := [Noop(), Written([])];
    var leader, follower := Leading(0, 1, 1, es, es, Progress(2, 3, 1), map[], [], 1),
      Following(1, 0, 1, es, Some(0), {2});
    run := Reboots(run, 0, 1, leader, follower, 0);
    var restarted := leader.(role := Follower(None, {}));
    var e := Envelope(1, 1, 0, ClientRequest(2, StatusRequest));
    assert Step(restarted, e).node.role == Halted(ForeignClientRequest) by { HaltsOn(restarted, e); }
    run := Receives(run, 0, 1, restarted, follower, e, Step(restarted, e));
    assert run.At(|run.states| - 1, 0);
  }

  /** The follower restarts before the answer to its forwarded request arrives. */
  lemma FollowerMeetsAnswer()
    ensures Occurs(ResponseFromNonLeader)
  {
    hide Run.Valid, Step;
    var run := Forwards();
    var es := [Noop(), Written([])];
    var leader, follower := Leading(0, 1, 1, es, es, Progress(2, 3, 1), map[], [], 1),
      Following(1, 0, 1, es, Some(0), {2});
    var e := Envelope(1, 1, 0, ClientRequest(2, StatusRequest));
    var answer := StatusTo(leader, 1, 2);
    run := Receives(run, 0, 1, leader, follower, e, Out(leader, {answer}));
    run := Reboots(run, 0, 1, leader, follower, 1);
    var restarted := follower.(role := Follower(None, {}));
    assert Step(restarted, answer).node.role == Halted(ResponseFromNonLeader) by { HaltsOn(restarted, answer); }
    run := Receives(run, 0, 1, leader, restarted, answer, Step(restarted, answer));
    assert run.At(|run.states| - 1, 1);
  }

  lemma StatusTo(n: Node, from: NodeID, id: RequestID) returns (answer: Envelope)
    requires n.role.Leader? && from in n.peers
    ensures Step(n, Envelope(from, n.log.term, n.id, ClientRequest(id, StatusRequest))) == Out(n, {answer})
    ensures answer.from == n.id && answer.term == n.log.term && answer.to == from && answer.message.ClientResponse?
  {
    answer := Mail(n, from, ClientResponse(id, StatusAnswer(MatchTable(n), n.log.commitIndex, |n.applied|)));
  }

  // ---------------------------------------------------------------- any leader can be made to halt

  /** Every node that is not ahead of its leader answers its heartbeat. */
  lemma HeartbeatAnswered(h: History, ids: set<NodeID>, n: Node, e: Envelope) returns (reply: Envelope)
    requires NodeOk(h, ids, n) && MailOk(h, ids, e) && e.to == n.id && e.message.Heartbeat?
    requires !n.role.Halted? && n.log.term <= e.term
    ensures reply in Step(n, e).sent && reply.from == n.id && reply.to == e.from && reply.term == e.term
    ensures reply.message.HeartbeatResponse?
  {
    hide EntriesOk, VoteMatches, AcksKept, CommitsKept, TermCurrent, CandidateOk, PeerOk, PendingOk, OnHeartbeat,
      Committed;
    var follower := n.(log := if n.log.term < e.term then n.log.(term := e.term, vote := None) else n.log,
                       role := Follower(Some(e.from), {}));
    if n.log.term < e.term || n.role.Candidate? {
      reply := Replies(follower, e);
    } else {
      reply := Replies(n.(role := HearLeader(n, e.from).node.role), e);
    }
  }

  lemma Replies(n: Node, e: Envelope) returns (reply: Envelope)
    requires e.message.Heartbeat?
    ensures var m := e.message;
      reply in OnHeartbeat(n, e.from, m.lastIndex, m.commitIndex, m.readSeq).sent
    ensures reply.from == n.id && reply.to == e.from && reply.term == n.log.term && reply.message.HeartbeatResponse?
  {
    var m := e.message;
    var matchIndex := if Has(n.log.entries, m.lastIndex, n.log.term) then m.lastIndex else 0;
    reply := Mail(n, e.from, HeartbeatResponse(matchIndex, m.readSeq));
  }

  /** A leader sends a heartbeat to each peer and is unchanged. */
  lemma HeartbeatSent(h: History, ids: set<NodeID>, n: Node, q: NodeID) returns (e: Envelope)
    requires HistoryOk(h, ids) && NodeOk(h, ids, n) && n.role.Leader? && q in n.peers
    ensures Tick(n).node == n && e in Tick(n).sent && MailOk(h, ids, e)
    ensures e.from == n.id && e.to == q && e.term == n.log.term && e.message.Heartbeat?
  {
    hide HistoryOk, NodeOk, MailOk;
    SendHeartbeatsGood(ids, Moment(0, map[], {}, None, true), h, n);
    e := Mail(n, q, Heartbeat(|n.log.entries|, n.log.commitIndex, n.role.readSeq));
  }

  /**
   * Conversely, every leader with a live peer that is not ahead of it can be made to halt by a restart: it sends a
   * heartbeat, restarts, and gets the answer.
   */
  lemma RestartedLeaderCanHalt(run: Run, p: NodeID, q: NodeID) returns (run': Run)
    requires run.Valid() && p in Last(run).nodes && q in Last(run).nodes && p != q
    requires Last(run).nodes[p].role.Leader? && !Last(run).nodes[q].role.Halted?
    requires Last(run).nodes[q].log.term <= Last(run).nodes[p].log.term
    ensures run'.Valid() && run.states <= run'.states && p in Last(run').nodes
    ensures Last(run').nodes[p].role == Halted(UnexpectedMessage)
    ensures Last(run').nodes[p].log.term == Last(run).nodes[p].log.term
  {
    hide Init, Next, Step, Tick, Start, Explains, NodeOk, MailOk, HistoryOk;
    var x, y := Last(run).nodes[p], Last(run).nodes[q];
    var h, ids := Held(run);
    HeldNode(run, h, ids, p);
    HeldNode(run, h, ids, q);
    var e := HeartbeatSent(h, ids, x, q);
    var reply := HeartbeatAnswered(h, ids, y, e);
    var run1 := Then(run, Timeout(p), Tick(x));
    var run2 := Then(run1, Deliver(e), Step(y, e));
    var action := Restart(p, x.log.commitIndex, |x.applied|);
    assert Last(run2).nodes[p] == x;
    var run3 := Then(run2, action, Effect(Last(run2), action));
    var restarted := Last(run3).nodes[p];
    RestartedFollower(x, restarted);
    HaltsOn(restarted, reply);
    run' := Then(run3, Deliver(reply), Step(restarted, reply));
  }

  lemma RestartedFollower(n: Node, restarted: Node)
    requires n.peers != {}
    requires var d := Durable(n, n.log.commitIndex, |n.applied|);
      restarted == Start(d.id, d.peers, d.maxAppend, d.log, d.applied).node
    ensures restarted.role == Follower(None, {}) && restarted.log.term == n.log.term
    ensures restarted.id == n.id && restarted.peers == n.peers
  {
    hide Start, BecomeCandidate, BecomeLeader;
    StartMeans(Durable(n, n.log.commitIndex, |n.applied|));
  }

  /** The assertions of log.rs and node.rs that can fail in some run are exactly these three. */
  lemma ReachablePanics(panic: Panic)
    ensures Occurs(panic) <==> ReachablePanic(panic)
  {
    hide Run.Valid;
    if Occurs(panic) {
      var run: Run, k: nat, p: NodeID :| run.Valid() && run.At(k, p) && run.Node(k, p).role == Halted(panic);
      HaltsOnlyAfterRestart(run, k, p);
    }
    LeaderMeetsResponse();
    LeaderMeetsRequest();
    FollowerMeetsAnswer();
  }
}
