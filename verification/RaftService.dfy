/**
 * What a leader owes its clients, step by step: it commits what a majority holds, answers what it applies and reads
 * that a majority confirmed at once, and keeps every other request in hand.
 */
module RaftService {
  import opened Common
  import opened RaftLog
  import opened RaftNode
  import opened RaftHistory
  import RaftDecisions

  // ---------------------------------------------------------------- a leader with nothing left to do

  /** Terms ascend along the log up to the node's, and what is committed is applied. */
  ghost predicate Ordered(n: Node) {
    && n.log.commitIndex <= |n.applied| <= |n.log.entries|
    && forall i, j :: 0 <= i <= j < |n.log.entries| ==> n.log.entries[i].term <= n.log.entries[j].term <= n.log.term
  }

  ghost predicate Within(n: Node)
    requires n.role.Leader?
  {
    && (forall p :: p in n.role.progress ==>
          n.role.progress[p].matchIndex <= |n.log.entries| && n.role.progress[p].readSeq <= n.role.readSeq)
    && RaftDecisions.Queued(n.role.queue) && (forall r :: r in n.role.queue ==> r.readSeq <= n.role.readSeq)
    && (forall i :: i in n.role.writes ==> |n.applied| < i <= |n.log.entries|)
  }

  ghost predicate Fit(n: Node) {
    n.role.Leader? && TableFits(n) && Ordered(n) && Within(n)
  }

  /** An entry of the leader's own term is committed exactly if a majority is known to hold it. */
  ghost predicate Tallied(n: Node)
    requires n.role.Leader?
  {
    forall i :: 1 <= i <= |n.log.entries| && n.log.entries[i - 1].term == n.log.term ==>
      (i <= n.log.commitIndex <==> |AtLeast(MatchTable(n), i)| >= QuorumSize(n))
  }

  ghost predicate Backed(n: Node)
    requires n.role.Leader?
  {
    forall i :: 1 <= i <= n.log.commitIndex && i <= |n.log.entries| && n.log.entries[i - 1].term == n.log.term ==>
      |AtLeast(MatchTable(n), i)| >= QuorumSize(n)
  }

  /** No read is left waiting that a majority has confirmed, once an entry of the leader's own term is committed. */
  ghost predicate Served(n: Node)
    requires n.role.Leader?
  {
    n.log.commitTerm >= n.log.term ==>
      forall r :: r in n.role.queue ==> |AtLeast(ReadTable(n), r.readSeq)| < QuorumSize(n)
  }

  ghost predicate Prompt(n: Node) {
    Fit(n) && Tallied(n) && Served(n)
  }

  // ---------------------------------------------------------------- what becomes of requests

  /** Every pending write still is, or was answered with the state it was applied to. */
  ghost predicate KeepsWrites(n: Node, o: Out)
    requires n.role.Leader? && o.node.role.Leader?
  {
    forall i :: i in n.role.writes ==>
      || (i in o.node.role.writes && o.node.role.writes[i] == n.role.writes[i])
      || (i <= |o.node.applied| && WriteTold(n, i, o.node.applied, o.sent))
  }

  predicate WriteTold(n: Node, i: Index, applied: seq<Entry>, sent: set<Envelope>)
    requires n.role.Leader? && i in n.role.writes && i <= |applied|
  {
    Mail(n, n.role.writes[i].from, ClientResponse(n.role.writes[i].id, WriteAnswer(applied[..i]))) in sent
  }

  /** Every pending read still is, or was answered. */
  ghost predicate KeepsReads(n: Node, o: Out)
    requires n.role.Leader? && o.node.role.Leader?
  {
    forall r :: r in n.role.queue ==> r in o.node.role.queue || ReadTold(n, r, o.sent)
  }

  ghost predicate ReadTold(n: Node, r: PendingRead, sent: set<Envelope>) {
    exists state :: Mail(n, r.from, ClientResponse(r.id, ReadAnswer(r.command, state))) in sent
  }

  predicate SameLeader(n: Node, n': Node) {
    && n'.id == n.id && n'.peers == n.peers && n'.log.term == n.log.term && n'.maxAppend == n.maxAppend
    && n.log.entries <= n'.log.entries && n.applied <= n'.applied
  }

  /** The leader goes on, or halts. */
  ghost predicate Goes(n: Node, o: Out) {
    o.node.role.Halted?
    || (n.role.Leader? && o.node.role.Leader? && SameLeader(n, o.node) && KeepsWrites(n, o) && KeepsReads(n, o))
  }

  lemma GoesJoin(n: Node, a: Out, b: Out)
    requires Goes(n, a) && Goes(a.node, b) && (a.node.role.Halted? ==> b.node.role.Halted?)
    ensures Goes(n, Join(a, b))
  {
    if !b.node.role.Halted? {
      var o := Join(a, b);
      forall i | i in n.role.writes
        ensures (i in o.node.role.writes && o.node.role.writes[i] == n.role.writes[i])
          || (i <= |o.node.applied| && WriteTold(n, i, o.node.applied, o.sent))
      {
        if i <= |a.node.applied| && WriteTold(n, i, a.node.applied, a.sent) {
          assert a.node.applied[..i] == b.node.applied[..i];
        }
      }
      forall r | r in n.role.queue ensures r in o.node.role.queue || ReadTold(n, r, o.sent) {
        if ReadTold(n, r, a.sent) {
          var state :| Mail(n, r.from, ClientResponse(r.id, ReadAnswer(r.command, state))) in a.sent;
          assert Mail(n, r.from, ClientResponse(r.id, ReadAnswer(r.command, state))) in o.sent;
        } else if ReadTold(a.node, r, b.sent) {
          var state :| Mail(a.node, r.from, ClientResponse(r.id, ReadAnswer(r.command, state))) in b.sent;
          assert Mail(n, r.from, ClientResponse(r.id, ReadAnswer(r.command, state))) in o.sent;
        }
      }
    }
  }

  lemma GoesQuiet(n: Node)
    requires n.role.Leader? || n.role.Halted?
    ensures Goes(n, Quiet(n))
  {}

  /** A step that keeps the pending requests and what is applied. */
  lemma GoesOn(n: Node, n': Node, sent: set<Envelope>)
    requires n.role.Leader? && n'.role.Leader? && SameLeader(n, n')
    requires forall i :: i in n.role.writes ==> i in n'.role.writes && n'.role.writes[i] == n.role.writes[i]
    requires forall r :: r in n.role.queue ==> r in n'.role.queue
    ensures Goes(n, Out(n', sent))
  {}

  // ---------------------------------------------------------------- reads and commits

  lemma TablesKept(n: Node, n': Node)
    requires n.role.Leader? && n'.role.Leader? && n'.id == n.id && n'.peers == n.peers
    requires n'.role.progress == n.role.progress && n'.role.readSeq == n.role.readSeq && n'.log.entries == n.log.entries
    ensures MatchTable(n') == MatchTable(n) && ReadTable(n') == ReadTable(n) && QuorumSize(n') == QuorumSize(n)
  {}

  lemma ReadServes(n: Node)
    requires Fit(n)
    ensures var o := MaybeRead(n);
      && Goes(n, o) && !o.node.role.Halted? && Fit(o.node) && Served(o.node) && (Tallied(n) ==> Tallied(o.node))
      && o.node == n.(role := n.role.(queue := o.node.role.queue))
  {
    hide MaybeRead, QuorumValue, ReadyReads, ReadTable, MatchTable, QuorumSize, AtLeast, Ordered;
    ReadsMean(n);
    var o := MaybeRead(n);
    assert n.log.commitIndex <= |n.applied| by { OrderedApplied(n); }
    if n.role.queue == [] || n.log.commitTerm < n.log.term {
      GoesQuiet(n);
    } else {
      var k := ReadyReads(n.role.queue, QuorumValue(ReadTable(n), QuorumSize(n)));
      QueueServed(n, k);
      TablesKept(n, o.node);
      assert Ordered(o.node) by { OrderedKept(n, o.node); }
    }
  }

  lemma OrderedApplied(n: Node)
    requires Ordered(n)
    ensures n.log.commitIndex <= |n.applied| <= |n.log.entries|
  {}

  lemma OrderedKept(n: Node, n': Node)
    requires Ordered(n) && n'.log == n.log && n'.applied == n.applied
    ensures Ordered(n')
  {}

  lemma QueueServed(n: Node, k: nat)
    requires Fit(n) && 1 <= QuorumSize(n) <= |ReadTable(n)|
    requires k == ReadyReads(n.role.queue, QuorumValue(ReadTable(n), QuorumSize(n)))
    ensures var n' := n.(role := n.role.(queue := n.role.queue[k..]));
      && Goes(n, Out(n', Answered(n, n.role.queue, k)))
      && RaftDecisions.Queued(n'.role.queue) && (forall r :: r in n'.role.queue ==> r in n.role.queue)
      && forall r :: r in n'.role.queue ==> |AtLeast(ReadTable(n), r.readSeq)| < QuorumSize(n)
  {
    hide QuorumValue, ReadyReads, ReadTable, QuorumSize, AtLeast, Ordered, TableFits, Goes, Answered;
    var queue := n.role.queue;
    var v := QuorumValue(ReadTable(n), QuorumSize(n));
    QueueAnswered(n, k);
    forall r | r in queue[k..] ensures |AtLeast(ReadTable(n), r.readSeq)| < QuorumSize(n) && r in queue {
      var i :| 0 <= i < |queue| - k && queue[k..][i] == r;
      assert queue[k + i] == r;
      RaftDecisions.ReadyAre(queue, v, k + i);
      RaftDecisions.QuorumReached(ReadTable(n), QuorumSize(n), r.readSeq);
    }
  }

  lemma QueueAnswered(n: Node, k: nat)
    requires n.role.Leader? && k <= |n.role.queue|
    ensures Goes(n, Out(n.(role := n.role.(queue := n.role.queue[k..])), Answered(n, n.role.queue, k)))
  {
    var queue := n.role.queue;
    forall r | r in queue ensures r in queue[k..] || ReadTold(n, r, Answered(n, queue, k)) {
      var i :| 0 <= i < |queue| && queue[i] == r;
      if i < k {
        assert Mail(n, queue[i].from, ClientResponse(queue[i].id, ReadAnswer(queue[i].command, n.applied)))
            in Answered(n, queue, k);
      } else {
        assert queue[k..][i - k] == r;
      }
    }
  }

  /** The node with its log committed up to `c`. */
  function CommittedTo(n: Node, c: Index): Node
    requires 1 <= c <= |n.log.entries|
  {
    n.(log := n.log.(commitIndex := c, commitTerm := n.log.entries[c - 1].term))
  }

  lemma ApplyServes(n: Node, c: Index)
    requires Fit(n) && n.log.commitIndex < c <= |n.log.entries|
    ensures var o := ApplyAndAnswer(CommittedTo(n, c));
      && Goes(n, o) && Fit(o.node) && o.node.log == CommittedTo(n, c).log
      && o.node == n.(log := o.node.log, applied := o.node.applied, role := n.role.(writes := o.node.role.writes))
  {
    hide RaftDecisions.Queued, TableFits;
    var o := ApplyAndAnswer(CommittedTo(n, c));
    var todo := Between(n.log.entries, |n.applied|, c);
    forall i | i in n.role.writes && i !in o.node.role.writes
      ensures i <= |o.node.applied| && WriteTold(n, i, o.node.applied, o.sent)
    {
      assert o.node.applied[..i] == n.applied + todo[..i - |n.applied|];
    }
    assert TableFits(o.node) by { FitsStill(n, o.node); }
  }

  lemma FitsStill(n: Node, n': Node)
    requires TableFits(n) && n'.role.Leader? && n'.role.progress.Keys == n.role.progress.Keys
    requires n'.id == n.id && n'.peers == n.peers
    ensures TableFits(n')
  {}

  lemma CommitServes(n: Node)
    requires Fit(n) && Backed(n) && Served(n)
    ensures var o := MaybeCommit(n);
      && Goes(n, o) && !o.node.role.Halted? && Prompt(o.node)
      && o.node.role.progress == n.role.progress && o.node.log.entries == n.log.entries
      && o.node.role.readSeq == n.role.readSeq && o.node.log.commitIndex >= n.log.commitIndex
  {
    hide MaybeCommit, MaybeRead, ApplyAndAnswer, QuorumValue, MatchTable, ReadTable, QuorumSize, AtLeast, Ordered;
    hide Goes, Within, Tallied, Backed;
    TableSize(n);
    CommitMeans(n);
    MatchesWithin(n);
    RaftDecisions.QuorumWithin(n);
    var v := QuorumValue(MatchTable(n), QuorumSize(n));
    if n.log.commitIndex < v && n.log.entries[v - 1].term == n.log.term {
      ApplyServes(n, v);
      var o1 := ApplyAndAnswer(CommittedTo(n, v));
      GoesLeader(n, o1);
      TablesKept(n, o1.node);
      CountsTo(n, o1.node, v);
      if n.log.commitTerm != n.log.term {
        ReadServes(o1.node);
        GoesJoin(n, o1, MaybeRead(o1.node));
      } else {
        assert Served(o1.node);
      }
    } else {
      CountsNoMore(n, v);
      GoesQuiet(n);
    }
  }

  lemma GoesLeader(n: Node, o: Out)
    requires Goes(n, o) && o.node.role.Leader?
    ensures SameLeader(n, o.node)
  {}

  lemma MatchesWithin(n: Node)
    requires Fit(n)
    ensures forall p :: p in n.role.progress ==> n.role.progress[p].matchIndex <= |n.log.entries|
  {}

  lemma CountsTo(n: Node, n': Node, v: Index)
    requires Fit(n) && n'.role.Leader? && 1 <= QuorumSize(n) <= |MatchTable(n)|
    requires v == QuorumValue(MatchTable(n), QuorumSize(n)) && n'.log.commitIndex == v
    requires MatchTable(n') == MatchTable(n) && QuorumSize(n') == QuorumSize(n)
    ensures Tallied(n')
  {
    hide QuorumValue, MatchTable, QuorumSize, AtLeast, Ordered, Within, TableFits;
    forall i | 1 <= i <= |n'.log.entries|
      ensures i <= n'.log.commitIndex <==> |AtLeast(MatchTable(n'), i)| >= QuorumSize(n')
    {
      RaftDecisions.QuorumReached(MatchTable(n), QuorumSize(n), i);
    }
  }

  lemma CountsNoMore(n: Node, v: Index)
    requires Fit(n) && Backed(n) && 1 <= QuorumSize(n) <= |MatchTable(n)|
    requires v == QuorumValue(MatchTable(n), QuorumSize(n)) <= |n.log.entries|
    requires v <= n.log.commitIndex || n.log.entries[v - 1].term != n.log.term
    ensures Tallied(n)
  {
    hide QuorumValue, MatchTable, QuorumSize, AtLeast, Within, TableFits;
    forall i | 1 <= i <= |n.log.entries| && n.log.entries[i - 1].term == n.log.term
      ensures i <= n.log.commitIndex <==> |AtLeast(MatchTable(n), i)| >= QuorumSize(n)
    {
      RaftDecisions.QuorumReached(MatchTable(n), QuorumSize(n), i);
    }
  }

  // ---------------------------------------------------------------- appends

  /** A probe or an append changes only what is sent next. */
  lemma SendServes(n: Node, peer: NodeID, probe: bool)
    requires Prompt(n)
    ensures var o := SendAppend(n, peer, probe);
      && Goes(n, o) && (o.node.role.Halted? || Prompt(o.node))
      && (o.node.role.Leader? ==> o.node.role.readSeq == n.role.readSeq && o.node.log == n.log)
  {
    hide PlanAppend, Ordered, Tallied, Served, Goes, AtLeast;
    var o := SendAppend(n, peer, probe);
    if o.node.role.Leader? {
      PlanKeeps(n.log.entries, n.role.progress[peer], probe, n.maxAppend);
      NextDiffers(n, o.node);
      GoesOn(n, o.node, o.sent);
    } else {
      HaltGoes(n, o);
    }
  }

  lemma HaltGoes(n: Node, o: Out)
    requires o.node.role.Halted?
    ensures Goes(n, o)
  {}

  lemma PlanKeeps(entries: seq<Entry>, p: Progress, probe: bool, maxAppend: nat)
    requires ProgressValid(p, |entries|)
    ensures var p' := PlanAppend(entries, p, probe, maxAppend).progress;
      p'.matchIndex == p.matchIndex && p'.readSeq == p.readSeq
  {}

  /** Only what is sent next to peers differs. */
  lemma NextDiffers(n: Node, n': Node)
    requires Prompt(n) && n'.role.Leader? && n' == n.(role := n.role.(progress := n'.role.progress))
    requires n'.role.progress.Keys == n.role.progress.Keys
    requires forall q :: q in n.role.progress ==>
      && n'.role.progress[q].matchIndex == n.role.progress[q].matchIndex
      && n'.role.progress[q].readSeq == n.role.progress[q].readSeq
    ensures Prompt(n')
  {
    hide AtLeast, RaftDecisions.Queued;
    assert MatchTable(n') == MatchTable(n) && ReadTable(n') == ReadTable(n);
  }

  lemma ConfirmReadServes(n: Node, from: NodeID, readSeq: nat)
    requires Prompt(n) && readSeq <= n.role.readSeq
    ensures var o := ConfirmRead(n, from, readSeq);
      && Goes(n, o) && (o.node.role.Halted? || Prompt(o.node))
      && (o.node.role.Leader? ==> o.node.log == n.log)
  {
    hide MaybeRead, Goes, Prompt, AtLeast;
    PromptLeads(n);
    if from !in n.role.progress {
      HaltGoes(n, ConfirmRead(n, from, readSeq));
    } else if readSeq <= n.role.progress[from].readSeq {
      GoesQuiet(n);
    } else {
      var m := WithProgress(n, from, AdvanceRead(n.role.progress[from], readSeq));
      ReadMore(n, from, readSeq);
      GoesOn(n, m, {});
      ReadServes(m);
      GoesJoin(n, Quiet(m), MaybeRead(m));
      assert Join(Quiet(m), MaybeRead(m)) == MaybeRead(m);
      assert Prompt(MaybeRead(m).node) by { PromptIs(MaybeRead(m).node); }
    }
  }

  lemma PromptLeads(n: Node)
    requires Prompt(n)
    ensures n.role.Leader? && Fit(n)
  {}

  lemma PromptIs(n: Node)
    requires Fit(n) && Tallied(n) && Served(n)
    ensures Prompt(n)
  {}

  lemma ReadMore(n: Node, from: NodeID, readSeq: nat)
    requires Prompt(n) && from in n.role.progress && n.role.progress[from].readSeq < readSeq <= n.role.readSeq
    ensures var m := WithProgress(n, from, AdvanceRead(n.role.progress[from], readSeq));
      Fit(m) && Tallied(m)
  {
    hide AtLeast, Ordered, RaftDecisions.Queued;
    var m := WithProgress(n, from, AdvanceRead(n.role.progress[from], readSeq));
    assert m.role.progress.Keys == n.role.progress.Keys;
    assert MatchTable(m) == MatchTable(n);
    OrderedKept(n, m);
  }

  lemma ConfirmMatchServes(n: Node, from: NodeID, matchIndex: Index)
    requires Prompt(n) && matchIndex <= |n.log.entries|
    ensures var o := ConfirmMatch(n, from, matchIndex);
      Goes(n, o) && (o.node.role.Halted? || Prompt(o.node))
  {
    hide MaybeCommit, Goes, Prompt, AtLeast;
    PromptLeads(n);
    if from !in n.role.progress {
      HaltGoes(n, ConfirmMatch(n, from, matchIndex));
    } else if matchIndex <= n.role.progress[from].matchIndex {
      GoesQuiet(n);
    } else {
      var m := WithProgress(n, from, AdvanceMatch(n.role.progress[from], matchIndex));
      MatchMore(n, from, matchIndex);
      GoesOn(n, m, {});
      CommitServes(m);
      GoesJoin(n, Quiet(m), MaybeCommit(m));
      assert Join(Quiet(m), MaybeCommit(m)) == MaybeCommit(m);
    }
  }

  lemma MatchMore(n: Node, from: NodeID, matchIndex: Index)
    requires Prompt(n) && from in n.role.progress
    requires n.role.progress[from].matchIndex < matchIndex <= |n.log.entries|
    ensures var m := WithProgress(n, from, AdvanceMatch(n.role.progress[from], matchIndex));
      Fit(m) && Backed(m) && Served(m)
  {
    hide Ordered, RaftDecisions.Queued;
    var m := WithProgress(n, from, AdvanceMatch(n.role.progress[from], matchIndex));
    assert m.role.progress.Keys == n.role.progress.Keys;
    assert ReadTable(m) == ReadTable(n);
    OrderedKept(n, m);
    forall i ensures |AtLeast(MatchTable(n), i)| <= |AtLeast(MatchTable(m), i)| {
      SubsetSize(AtLeast(MatchTable(n), i), AtLeast(MatchTable(m), i));
    }
  }

  lemma ProbeServes(n: Node, from: NodeID, nextIndex: Index)
    requires Prompt(n)
    ensures var o := Probe(n, from, nextIndex);
      Goes(n, o) && (o.node.role.Halted? || Prompt(o.node)) && (o.node.role.Leader? ==> o.node.log == n.log)
  {
    hide SendAppend, Goes, Prompt, AtLeast;
    PromptLeads(n);
    if from !in n.role.progress {
      HaltGoes(n, Probe(n, from, nextIndex));
    } else {
      var m := WithProgress(n, from, RegressNext(n.role.progress[from], nextIndex));
      assert m.role.progress.Keys == n.role.progress.Keys;
      NextDiffers(n, m);
      GoesOn(n, m, {});
      SendServes(m, from, true);
      GoesJoin(n, Quiet(m), SendAppend(m, from, true));
      assert Join(Quiet(m), SendAppend(m, from, true)) == SendAppend(m, from, true);
    }
  }

  // ---------------------------------------------------------------- responses

  lemma HeartbeatResponseServes(n: Node, from: NodeID, matchIndex: Index, readSeq: nat)
    requires Prompt(n)
    ensures var o := OnHeartbeatResponse(n, from, matchIndex, readSeq);
      Goes(n, o) && (o.node.role.Halted? || Prompt(o.node))
  {
    hide ConfirmRead, Probe, ConfirmMatch, Goes, Prompt;
    PromptLeads(n);
    if matchIndex > |n.log.entries| || readSeq > n.role.readSeq {
      HaltGoes(n, OnHeartbeatResponse(n, from, matchIndex, readSeq));
    } else {
      ConfirmReadServes(n, from, readSeq);
      var o1 := ConfirmRead(n, from, readSeq);
      if o1.node.role.Halted? {
        HaltedDoesNothing(o1.node, from, matchIndex, |n.log.entries|);
        HaltGoes(n, OnHeartbeatResponse(n, from, matchIndex, readSeq));
      } else {
        PromptLeads(o1.node);
        ProbeServes(o1.node, from, |n.log.entries|);
        GoesQuiet(o1.node);
        var o2 := if matchIndex == 0 then Probe(o1.node, from, |n.log.entries|) else Quiet(o1.node);
        GoesJoin(n, o1, o2);
        if o2.node.role.Halted? {
          HaltedDoesNothing(o2.node, from, matchIndex, 0);
          HaltGoes(n, OnHeartbeatResponse(n, from, matchIndex, readSeq));
        } else {
          PromptLeads(o2.node);
          ConfirmMatchServes(o2.node, from, matchIndex);
          GoesJoin(n, Join(o1, o2), ConfirmMatch(o2.node, from, matchIndex));
        }
      }
    }
  }

  lemma HaltedDoesNothing(n: Node, from: NodeID, matchIndex: Index, nextIndex: Index)
    requires n.role.Halted?
    ensures ConfirmMatch(n, from, matchIndex) == Quiet(n) && Probe(n, from, nextIndex) == Quiet(n)
  {}

  lemma AppendResponseServes(n: Node, from: NodeID, matchIndex: Index, rejectIndex: Index)
    requires Prompt(n)
    ensures var o := OnAppendResponse(n, from, matchIndex, rejectIndex);
      Goes(n, o) && (o.node.role.Halted? || Prompt(o.node))
  {
    hide SendAppend, Probe, ConfirmMatch, RegressNext, Goes, Prompt;
    PromptLeads(n);
    GoesQuiet(n);
    var o := OnAppendResponse(n, from, matchIndex, rejectIndex);
    if o.node.role.Halted? {
      HaltGoes(n, o);
    } else if rejectIndex == 0 {
      ConfirmMatchServes(n, from, matchIndex);
      var o1 := ConfirmMatch(n, from, matchIndex);
      if o1.node.role.Leader? {
        SendServes(o1.node, from, false);
        GoesJoin(n, o1, SendAppend(o1.node, from, false));
      } else {
        PromptOr(o1.node);
      }
    } else {
      ProbeServes(n, from, rejectIndex);
    }
  }

  lemma PromptOr(n: Node)
    requires n.role.Halted? || Prompt(n)
    ensures n.role.Halted? || n.role.Leader?
  {}

  // ---------------------------------------------------------------- requests

  /** The node has this client's request in hand. */
  predicate Held(n: Node, from: NodeID, id: RequestID) {
    match n.role
    case Follower(_, forwarded) => from == n.id && id in forwarded
    case Leader(_, writes, queue, _) =>
      || (exists i :: i in writes && writes[i] == PendingWrite(from, id))
      || (exists r :: r in queue && r.from == from && r.id == id)
    case _ => false
  }

  /** The node has sent this client a response. */
  ghost predicate Told(n: NodeID, sent: set<Envelope>, from: NodeID, id: RequestID) {
    exists e :: e in sent && e.from == n && e.to == from && e.message.ClientResponse? && e.message.id == id
  }

  ghost predicate InHand(n: NodeID, o: Out, from: NodeID, id: RequestID) {
    o.node.role.Halted? || Held(o.node, from, id) || Told(n, o.sent, from, id)
  }

  ghost predicate Keeps(n: Node, o: Out) {
    forall from, id :: Held(n, from, id) ==> InHand(n.id, o, from, id)
  }

  lemma TellsBy(n: NodeID, o: Out, e: Envelope)
    requires e in o.sent && e.from == n && e.message.ClientResponse?
    ensures InHand(n, o, e.to, e.message.id)
  {}

  lemma GoesKeeps(n: Node, o: Out)
    requires n.role.Leader? && Goes(n, o)
    ensures Keeps(n, o)
  {
    forall from, id | Held(n, from, id) ensures InHand(n.id, o, from, id) {
      if !o.node.role.Halted? {
        if i :| i in n.role.writes && n.role.writes[i] == PendingWrite(from, id) {
          if i in o.node.role.writes && o.node.role.writes[i] == n.role.writes[i] {
            assert Held(o.node, from, id);
          } else {
            TellsBy(n.id, o, Mail(n, from, ClientResponse(id, WriteAnswer(o.node.applied[..i]))));
          }
        } else {
          var r :| r in n.role.queue && r.from == from && r.id == id;
          if r in o.node.role.queue {
            assert Held(o.node, from, id);
          } else {
            var state :| Mail(n, r.from, ClientResponse(r.id, ReadAnswer(r.command, state))) in o.sent;
            TellsBy(n.id, o, Mail(n, from, ClientResponse(id, ReadAnswer(r.command, state))));
          }
        }
      }
    }
  }

  /** When a node's role ends, every request it has in hand is aborted. */
  lemma AbortsTell(n: Node, from: NodeID, id: RequestID)
    requires Held(n, from, id)
    ensures Told(n.id, Aborts(n), from, id)
  {
    var e := Mail(n, from, ClientResponse(id, Abort));
    match n.role {
      case Follower(_, forwarded) => assert e in Aborts(n);
      case Leader(_, writes, queue, _) =>
        if i :| i in writes && writes[i] == PendingWrite(from, id) {
          assert Mail(n, writes[i].from, ClientResponse(writes[i].id, Abort)) in Aborts(n);
        } else {
          var r :| r in queue && r.from == from && r.id == id;
          var i :| 0 <= i < |queue| && queue[i] == r;
          assert Mail(n, queue[i].from, ClientResponse(queue[i].id, Abort)) in Aborts(n);
        }
        assert e in Aborts(n);
    }
  }

  lemma AbortsKeep(n: Node, o: Out)
    requires Aborts(n) <= o.sent
    ensures Keeps(n, o)
  {
    hide Held, Told, Aborts;
    forall from, id | Held(n, from, id) ensures InHand(n.id, o, from, id) {
      AbortsTell(n, from, id);
      ToldMore(n.id, Aborts(n), o.sent, from, id);
    }
  }

  lemma ToldMore(n: NodeID, sent: set<Envelope>, sent': set<Envelope>, from: NodeID, id: RequestID)
    requires Told(n, sent, from, id) && sent <= sent'
    ensures Told(n, sent', from, id)
  {}

  // ---------------------------------------------------------------- proposals

  /** A proposal adds its entry, and changes otherwise only what is sent next. */
  lemma Proposed(n: Node, command: Option<Command>)
    requires n.role.Leader?
    ensures var m := Propose(n, command).node;
      !m.role.Halted? ==>
      && m.role.Leader? && m.role.progress.Keys == n.role.progress.Keys
      && m == n.(log := n.log.(entries := n.log.entries + [Entry(|n.log.entries| + 1, n.log.term, command)]),
                 role := n.role.(progress := m.role.progress))
      && forall q :: q in n.role.progress ==>
           && m.role.progress[q].matchIndex == n.role.progress[q].matchIndex
           && m.role.progress[q].readSeq == n.role.progress[q].readSeq
  {
    hide PlanAppend, Mail, ProgressValid;
    forall entries, p: Progress, max | ProgressValid(p, |entries|)
      ensures var p' := PlanAppend(entries, p, false, max).progress;
        p'.matchIndex == p.matchIndex && p'.readSeq == p.readSeq
    {
      PlanKeeps(entries, p, false, max);
    }
  }

  lemma ProposeServes(n: Node, command: Option<Command>)
    requires Fit(n) && Backed(n) && Served(n)
    ensures var o := Propose(n, command);
      && Goes(n, o)
      && (!o.node.role.Halted? ==>
          && Fit(o.node) && Backed(o.node) && Served(o.node)
          && (Tallied(n) && n.peers != {} ==> Tallied(o.node))
          && o.node.role.writes == n.role.writes && o.node.role.queue == n.role.queue
          && |o.node.log.entries| == |n.log.entries| + 1 && o.node.applied == n.applied)
  {
    hide Propose, Goes, Fit, Backed, Served, Tallied;
    PromptParts(n);
    Proposed(n, command);
    var o := Propose(n, command);
    if o.node.role.Halted? {
      HaltGoes(n, o);
    } else {
      GoesOn(n, o.node, o.sent);
      GrownFits(n, o.node);
      GrownCounts(n, o.node);
    }
  }

  lemma PromptParts(n: Node)
    requires Fit(n)
    ensures n.role.Leader? && n.id !in n.peers
  {}

  /** The log has one more entry, of the leader's term. */
  ghost predicate Grown(n: Node, n': Node) {
    && n.role.Leader? && n'.role.Leader? && n'.role.progress.Keys == n.role.progress.Keys
    && n'.log == n.log.(entries := n'.log.entries)
    && n.log.entries <= n'.log.entries && |n'.log.entries| == |n.log.entries| + 1
    && n'.log.entries[|n.log.entries|].term == n.log.term
    && n' == n.(log := n'.log, role := n.role.(progress := n'.role.progress))
    && forall q :: q in n.role.progress ==>
         && n'.role.progress[q].matchIndex == n.role.progress[q].matchIndex
         && n'.role.progress[q].readSeq == n.role.progress[q].readSeq
  }

  lemma GrownFits(n: Node, n': Node)
    requires Grown(n, n') && Fit(n)
    ensures Fit(n') && (Served(n) ==> Served(n'))
  {
    hide AtLeast, RaftDecisions.Queued;
    assert ReadTable(n') == ReadTable(n);
  }

  lemma GrownCounts(n: Node, n': Node)
    requires Grown(n, n') && Fit(n) && Backed(n)
    ensures Backed(n') && (Tallied(n) && n.peers != {} ==> Tallied(n'))
  {
    var last := |n'.log.entries|;
    forall i | 1 <= i < last ensures AtLeast(MatchTable(n'), i) == AtLeast(MatchTable(n), i) {
      AtLeastGrown(n, n', i);
    }
    assert AtLeast(MatchTable(n'), last) == {n.id} by { OnlyItself(n, n'); }
    assert |{n.id}| == 1;
    hide AtLeast, MatchTable, Within, Ordered;
  }

  lemma AtLeastGrown(n: Node, n': Node, i: Index)
    requires Grown(n, n') && Fit(n) && 1 <= i <= |n.log.entries|
    ensures AtLeast(MatchTable(n'), i) == AtLeast(MatchTable(n), i)
  {
    hide Ordered;
  }

  lemma OnlyItself(n: Node, n': Node)
    requires Grown(n, n') && Fit(n)
    ensures AtLeast(MatchTable(n'), |n'.log.entries|) == {n.id}
  {
    hide Ordered;
  }

  /** A write is pending at the end of the log, or answered. */
  lemma WriteServes(n: Node, from: NodeID, id: RequestID, command: Command)
    requires Prompt(n)
    ensures var o := OnWrite(n, from, id, command);
      && Goes(n, o) && (o.node.role.Halted? || Prompt(o.node)) && InHand(n.id, o, from, id)
  {
    hide Propose, MaybeCommit, Goes, Fit, Tallied, Served, Backed, Held;
    CountedBacked(n);
    PromptParts(n);
    ProposeServes(n, Some(command));
    var o1 := Propose(n, Some(command));
    if o1.node.role.Leader? {
      GoesLeader(n, o1);
      var last := |o1.node.log.entries|;
      var n1 := o1.node.(role := o1.node.role.(writes := o1.node.role.writes[last := PendingWrite(from, id)]));
      WritesGrown(n, o1, n1);
      WriteKept(n, o1, n1);
      HeldAt(n1, last, from, id);
      if ClusterSize(n1) == 1 {
        CommitServes(n1);
        GoesJoin(n, Out(n1, o1.sent), MaybeCommit(n1));
        assert Join(Out(n1, o1.sent), MaybeCommit(n1)) == Join(o1, MaybeCommit(n1));
        GoesKeeps(n1, MaybeCommit(n1));
        InHandMore(n.id, MaybeCommit(n1), OnWrite(n, from, id, command), from, id);
      } else {
        assert Join(o1, Quiet(n1)) == Out(n1, o1.sent);
        assert n.peers != {} by { Alone(n); }
      }
    } else {
      ProposedEnds(n, Some(command));
    }
  }

  lemma ProposedEnds(n: Node, command: Option<Command>)
    requires n.role.Leader? && !Propose(n, command).node.role.Leader?
    ensures Propose(n, command).node.role.Halted?
  {
    hide Propose;
    Proposed(n, command);
  }

  lemma Alone(n: Node)
    ensures n.peers == {} ==> ClusterSize(n) == 1
  {}

  lemma CountedBacked(n: Node)
    requires Prompt(n)
    ensures Fit(n) && Backed(n) && Served(n) && Tallied(n)
  {
    hide AtLeast, MatchTable, Ordered, Within;
  }

  lemma InHandMore(n: NodeID, o: Out, o': Out, from: NodeID, id: RequestID)
    requires InHand(n, o, from, id) && o'.node == o.node && o.sent <= o'.sent
    ensures InHand(n, o', from, id)
  {}

  lemma HeldAt(n: Node, i: Index, from: NodeID, id: RequestID)
    requires n.role.Leader? && i in n.role.writes && n.role.writes[i] == PendingWrite(from, id)
    ensures Held(n, from, id)
  {}

  lemma WritesGrown(n: Node, o1: Out, n1: Node)
    requires Fit(n) && Fit(o1.node) && n1.role.Leader?
    requires o1.node.role.writes == n.role.writes && |o1.node.log.entries| == |n.log.entries| + 1
    requires o1.node.applied == n.applied
    requires n1.role.writes.Keys == o1.node.role.writes.Keys + {|o1.node.log.entries|}
    requires n1 == o1.node.(role := o1.node.role.(writes := n1.role.writes))
    requires forall i :: i in o1.node.role.writes && i != |o1.node.log.entries| ==>
      n1.role.writes[i] == o1.node.role.writes[i]
    ensures Fit(n1)
    ensures (Backed(o1.node) ==> Backed(n1)) && (Served(o1.node) ==> Served(n1)) && (Tallied(o1.node) ==> Tallied(n1))
  {
    hide AtLeast, RaftDecisions.Queued;
    assert MatchTable(n1) == MatchTable(o1.node) && ReadTable(n1) == ReadTable(o1.node);
  }

  lemma WriteKept(n: Node, o1: Out, n1: Node)
    requires Fit(n) && Goes(n, o1) && o1.node.role.Leader? && n1.role.Leader?
    requires o1.node.role.writes == n.role.writes && |o1.node.log.entries| == |n.log.entries| + 1
    requires n1.role.writes.Keys == o1.node.role.writes.Keys + {|o1.node.log.entries|}
    requires n1 == o1.node.(role := o1.node.role.(writes := n1.role.writes))
    requires forall i :: i in o1.node.role.writes && i != |o1.node.log.entries| ==>
      n1.role.writes[i] == o1.node.role.writes[i]
    ensures Goes(n, Out(n1, o1.sent))
  {
    hide Ordered, TableFits, RaftDecisions.Queued;
    assert |o1.node.log.entries| !in n.role.writes;
  }

  /** A read is queued, or answered. */
  lemma ReadServed(n: Node, from: NodeID, id: RequestID, command: Command)
    requires Prompt(n)
    ensures var o := OnRead(n, from, id, command);
      && Goes(n, o) && (o.node.role.Halted? || Prompt(o.node)) && InHand(n.id, o, from, id)
  {
    hide MaybeRead, Goes, Fit, Tallied, Served, Held, QuorumSize;
    CountedBacked(n);
    PromptParts(n);
    var o1 := AcceptRead(n, from, id, command);
    Queues(n, from, id, command);
    if ClusterSize(n) == 1 {
      ReadServes(o1.node);
      GoesJoin(n, o1, MaybeRead(o1.node));
      GoesKeeps(o1.node, MaybeRead(o1.node));
      InHandMore(n.id, MaybeRead(o1.node), OnRead(n, from, id, command), from, id);
    }
  }

  lemma Queues(n: Node, from: NodeID, id: RequestID, command: Command)
    requires Prompt(n)
    ensures var o := AcceptRead(n, from, id, command);
      && Goes(n, o) && Fit(o.node) && Tallied(o.node) && Held(o.node, from, id) && o.node.role.Leader?
      && (ClusterSize(n) != 1 ==> Served(o.node))
  {
    var o := AcceptRead(n, from, id, command);
    var r := PendingRead(n.role.readSeq + 1, from, id, command);
    assert o.node.role.queue[|n.role.queue|] == r;
    assert MatchTable(o.node) == MatchTable(n);
    forall s | s in n.role.queue ensures AtLeast(ReadTable(o.node), s.readSeq) == AtLeast(ReadTable(n), s.readSeq) {
      ReadersKept(n, o.node, s.readSeq);
    }
    assert AtLeast(ReadTable(o.node), r.readSeq) == {n.id} by { OnlyReader(n, o.node); }
    assert |{n.id}| == 1;
    hide AtLeast, ReadTable, MatchTable, Ordered;
  }

  lemma ReadersKept(n: Node, n': Node, s: nat)
    requires Fit(n) && n'.role.Leader? && n'.role.progress == n.role.progress && n'.id == n.id
    requires s <= n.role.readSeq <= n'.role.readSeq
    ensures AtLeast(ReadTable(n'), s) == AtLeast(ReadTable(n), s)
  {
    hide Ordered;
  }

  lemma OnlyReader(n: Node, n': Node)
    requires Fit(n) && n'.role.Leader? && n'.role.progress == n.role.progress && n'.id == n.id
    requires n'.role.readSeq == n.role.readSeq + 1
    ensures AtLeast(ReadTable(n'), n'.role.readSeq) == {n.id}
  {
    hide Ordered;
  }
}
