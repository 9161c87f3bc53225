/** What a leader and a majority can always bring about: a write is replicated, committed, applied and answered. */
module RaftProgress {
  import opened Common
  import opened RaftLog
  import opened RaftNode
  import opened RaftHistory
  import opened RaftInvariant
  import opened RaftLeader
  import opened RaftService
  import opened RaftCluster
  import opened RaftDuties
  import opened RaftRuns
  import opened RaftElection
  import RaftProbe

  // ---------------------------------------------------------------- the leader's part

  /** The leader goes on in its term with its log; what it knows of its peers does not shrink. */
  ghost predicate On(n: Node, n': Node) {
    && n.role.Leader? && n'.role.Leader?
    && n'.id == n.id && n'.peers == n.peers && n'.maxAppend == n.maxAppend
    && n'.log.term == n.log.term && n'.log.entries == n.log.entries && n'.role.readSeq == n.role.readSeq
    && n'.log.commitIndex >= n.log.commitIndex
    && n'.role.progress.Keys == n.role.progress.Keys
    && forall q :: q in n.role.progress ==>
         && n'.role.progress[q].matchIndex >= n.role.progress[q].matchIndex
         && n'.role.progress[q].readSeq >= n.role.progress[q].readSeq
  }

  lemma OnTogether(a: Node, b: Node, c: Node)
    requires On(a, b) && On(b, c)
    ensures On(a, c)
  {}

  /** A leader whose last entry is of its term, with well-formed progress. */
  ghost predicate Sound(n: Node) {
    && Prompt(n) && n.maxAppend >= 1
    && n.log.entries != [] && n.log.entries[|n.log.entries| - 1].term == n.log.term
    && n.role.progress.Keys == n.peers
    && forall q :: q in n.role.progress ==> ProgressValid(n.role.progress[q], |n.log.entries|)
  }

  lemma SoundNow(h: History, ids: set<NodeID>, n: Node)
    requires HistoryOk(h, ids) && NodeOk(h, ids, n) && n.role.Leader? && Prompt(n)
    ensures Sound(n)
  {
    hide BallotsOk, AcksOk, CommitsOk, ArrivalsOk, VoteMatches, AcksKept, CommitsKept, TermCurrent, LogOk, PendingOk;
    hide Prompt, Confirmed, Acked;
    forall q | q in n.role.progress ensures ProgressValid(n.role.progress[q], |n.log.entries|) {
      assert PeerOk(h, n.log.term, q, n.role.progress[q]);
    }
    assert ReignShape(h.reigns[n.log.term], n.log.term);
  }

  lemma Beats(n: Node, q: NodeID)
    requires Sound(n) && q in n.peers
    ensures n.role.Leader? && Tick(n).node == n
    ensures Mail(n, q, Heartbeat(|n.log.entries|, n.log.commitIndex, n.role.readSeq)) in Tick(n).sent
  {
    hide Prompt;
    assert n.role.Leader? by { PromptLeads(n); }
  }

  lemma ReadsOn(n: Node)
    requires Fit(n)
    ensures var o := MaybeRead(n); On(n, o.node) && o.node == n.(role := n.role.(queue := o.node.role.queue))
  {
    hide MaybeRead, Goes, Ordered, Served, Tallied;
    ReadServes(n);
  }

  lemma ConfirmReadOn(n: Node, q: NodeID, readSeq: nat)
    requires Sound(n) && q in n.peers && readSeq <= n.role.readSeq
    ensures var o := ConfirmRead(n, q, readSeq);
      && Sound(o.node) && On(n, o.node) && o.node.log == n.log
      && o.node.role.progress[q].readSeq >= readSeq
      && o.node.role.progress[q].matchIndex == n.role.progress[q].matchIndex
      && o.node.role.progress[q].nextIndex == n.role.progress[q].nextIndex
  {
    hide MaybeRead, Goes, Fit, Served, Tallied;
    assert n.role.Leader? by { PromptLeads(n); }
    ConfirmReadServes(n, q, readSeq);
    if readSeq > n.role.progress[q].readSeq {
      ReadMore(n, q, readSeq);
      var m := WithProgress(n, q, AdvanceRead(n.role.progress[q], readSeq));
      assert m.role.progress.Keys == n.role.progress.Keys;
      ReadsOn(m);
    }
  }

  lemma ConfirmMatchOn(n: Node, q: NodeID, matchIndex: Index)
    requires Sound(n) && q in n.peers && matchIndex <= |n.log.entries|
    ensures var o := ConfirmMatch(n, q, matchIndex);
      && Sound(o.node) && On(n, o.node)
      && o.node.role.progress == n.role.progress[q := AdvanceMatch(n.role.progress[q], matchIndex)]
  {
    hide MaybeCommit, Goes, Fit, Served, Tallied, Backed;
    assert n.role.Leader? by { PromptLeads(n); }
    ConfirmMatchServes(n, q, matchIndex);
    var p := n.role.progress[q];
    if matchIndex > p.matchIndex {
      MatchMore(n, q, matchIndex);
      var m := WithProgress(n, q, AdvanceMatch(p, matchIndex));
      assert m.role.progress.Keys == n.role.progress.Keys;
      CommitServes(m);
      PromptLeads(MaybeCommit(m).node);
      GoesLeader(m, MaybeCommit(m));
    } else {
      assert n.role.progress[q := p] == n.role.progress;
    }
  }

  /** Told that a peer lacks its last entry, the leader probes the peer, or sends what it lacks. */
  lemma ProbesLate(n: Node, q: NodeID) returns (m: Message)
    requires Sound(n) && q in n.peers && n.role.progress[q].matchIndex < |n.log.entries| && Indexed(n.log.entries)
    ensures var o := Probe(n, q, |n.log.entries|);
      && On(n, o.node) && o.node.role.progress[q].readSeq == n.role.progress[q].readSeq
      && RaftProbe.LastSent(o.node, q, m) && Mail(n, q, m) in o.sent && o.node.log == n.log
  {
    hide Prompt, Between, Indexed, TermAt;
    assert n.role.Leader? by { PromptLeads(n); }
    var p := RegressNext(n.role.progress[q], |n.log.entries|);
    var n' := WithProgress(n, q, p);
    var plan := PlanAppend(n.log.entries, p, true, n.maxAppend);
    m := plan.message.value;
    if p.nextIndex == p.matchIndex + 1 { BatchEnds(n.log.entries, p.nextIndex - 1, n.maxAppend); }
    assert Probe(n, q, |n.log.entries|) == SendAppend(n', q, true);
    assert n.role.progress[q := p][q := plan.progress].Keys == n.role.progress.Keys;
  }

  /** What a leader does when a heartbeat is answered. */
  lemma Replied(n: Node, q: NodeID, matchIndex: Index, readSeq: nat) returns (m: Message)
    requires Sound(n) && q in n.peers && readSeq <= n.role.readSeq && Indexed(n.log.entries)
    requires matchIndex == |n.log.entries| || (matchIndex == 0 && n.role.progress[q].matchIndex < |n.log.entries|)
    ensures var o := OnHeartbeatResponse(n, q, matchIndex, readSeq);
      && On(n, o.node) && o.node.role.progress[q].readSeq >= readSeq
      && if matchIndex != 0 then o.node.role.progress[q].matchIndex == |n.log.entries|
         else RaftProbe.LastSent(o.node, q, m) && Mail(n, q, m) in o.sent
  {
    hide Prompt, ConfirmRead, ConfirmMatch, Probe, Indexed, RaftProbe.LastSent;
    assert n.role.Leader? by { PromptLeads(n); }
    ConfirmReadOn(n, q, readSeq);
    var o1 := ConfirmRead(n, q, readSeq);
    if matchIndex == 0 {
      m := ProbesLate(o1.node, q);
      var o2 := Probe(o1.node, q, |n.log.entries|);
      NothingNew(o2.node, q);
    } else {
      ConfirmMatchOn(o1.node, q, matchIndex);
      OnTogether(n, o1.node, ConfirmMatch(o1.node, q, matchIndex).node);
      m := Read(0);
    }
  }

  lemma NothingNew(n: Node, q: NodeID)
    requires n.role.Leader? && q in n.role.progress
    ensures ConfirmMatch(n, q, 0) == Quiet(n)
  {
    hide MaybeCommit;
  }

  /** What a leader does when its last append to a peer is accepted: it sends the next one, if there is more to send. */
  lemma Advances(n: Node, q: NodeID, end: Index) returns (m: Message)
    requires Sound(n) && q in n.peers && Indexed(n.log.entries)
    requires n.role.progress[q].matchIndex < end <= |n.log.entries| && n.role.progress[q].nextIndex == end + 1
    ensures var o := OnAppendResponse(n, q, end, 0);
      && On(n, o.node) && o.node.role.progress[q].matchIndex == end
      && (end < |n.log.entries| ==> RaftProbe.LastSent(o.node, q, m) && Mail(n, q, m) in o.sent)
  {
    hide Prompt, ConfirmMatch, Indexed, SendAppend, Between, TermAt;
    assert n.role.Leader? by { PromptLeads(n); }
    ConfirmMatchOn(n, q, end);
    var n1 := ConfirmMatch(n, q, end).node;
    assert n1.role.progress[q] == Progress(end, end + 1, n.role.progress[q].readSeq);
    RaftProbe.NextAppend(n1, q);
    var es := Between(n.log.entries, end, end + n.maxAppend);
    m := Append(end, TermAt(n.log.entries, end), es);
    SendsOn(n1, q);
    OnTogether(n, n1, SendAppend(n1, q, false).node);
  }

  lemma SendsOn(n: Node, q: NodeID)
    requires Sound(n) && q in n.peers
    ensures On(n, SendAppend(n, q, false).node)
    ensures SendAppend(n, q, false).node.role.progress[q].matchIndex == n.role.progress[q].matchIndex
  {
    hide Prompt, PlanAppend;
    assert n.role.Leader? by { PromptLeads(n); }
    PlanKeeps(n.log.entries, n.role.progress[q], false, n.maxAppend);
    assert SendAppend(n, q, false).node.role.progress.Keys == n.role.progress.Keys;
  }

  /** What a leader does when its last append to a peer is rejected: it tries an earlier base. */
  lemma Retries(n: Node, q: NodeID, r: Index) returns (m: Message)
    requires Sound(n) && q in n.peers && Indexed(n.log.entries)
    requires n.role.progress[q].matchIndex < r < n.role.progress[q].nextIndex && r <= |n.log.entries|
    ensures var o := OnAppendResponse(n, q, 0, r);
      && On(n, o.node) && o.node.role.progress[q].matchIndex == n.role.progress[q].matchIndex
      && RaftProbe.LastSent(o.node, q, m) && m.baseIndex == r - 1 && Mail(n, q, m) in o.sent
  {
    hide Prompt, Indexed, Between, TermAt, OnAppendResponse;
    assert n.role.Leader? by { PromptLeads(n); }
    RaftProbe.LeaderProbes(n, q, r);
    var p := n.role.progress[q];
    var es := if r > p.matchIndex + 1 then [] else Between(n.log.entries, r - 1, r - 1 + n.maxAppend);
    if r == p.matchIndex + 1 { BatchEnds(n.log.entries, r - 1, n.maxAppend); }
    m := Append(r - 1, TermAt(n.log.entries, r - 1), es);
    assert OnAppendResponse(n, q, 0, r).node.role.progress.Keys == n.role.progress.Keys;
  }

  // ---------------------------------------------------------------- the follower's part

  /** The node follows the leader in its term. */
  predicate Follows(f: Node, n: Node) {
    f.role.Follower? && f.role.leader == Some(n.id) && f.log.term == n.log.term
  }

  /** Two nodes of a cluster, the first of which leads while the second has seen no later term. */
  ghost predicate Paired(h: History, ids: set<NodeID>, n: Node, f: Node) {
    && HistoryOk(h, ids) && NodeOk(h, ids, n) && NodeOk(h, ids, f)
    && n.role.Leader? && n.id != f.id && Following(f, n)
  }

  /** A node of the leader's term follows it, or does not lead. */
  lemma NoRival(h: History, ids: set<NodeID>, n: Node, f: Node)
    requires Paired(h, ids, n, f)
    ensures n.id in f.peers && f.id in n.peers && n.log.term > 0
    ensures f.log.term == n.log.term ==> !f.role.Leader? && (f.role.Follower? ==> f.role.leader in {None, Some(n.id)})
  {
    hide BallotsOk, AcksOk, CommitsOk, ArrivalsOk, VoteMatches, AcksKept, CommitsKept, TermCurrent, EntriesOk, PeerOk,
      PendingOk, WriteOk;
    assert ReignShape(h.reigns[n.log.term], n.log.term);
  }

  /**
   * A heartbeat makes the node a follower, which answers it, and commits what the leader did if it has the last entry.
   */
  lemma Hears(h: History, ids: set<NodeID>, n: Node, f: Node)
    requires Paired(h, ids, n, f) && n.log.entries != [] && n.log.commitIndex <= |n.log.entries|
    ensures var o := Step(f, Mail(n, f.id, Heartbeat(|n.log.entries|, n.log.commitIndex, n.role.readSeq)));
      var has := Has(f.log.entries, |n.log.entries|, n.log.term);
      && Follows(o.node, n) && o.node.log.entries == f.log.entries
      && (Follows(f, n) ==> o.node.role == f.role)
      && (has ==> o.node.log.commitIndex >= n.log.commitIndex)
      && Envelope(f.id, n.log.term, n.id,
        HeartbeatResponse(if has then |n.log.entries| else 0, n.role.readSeq)) in o.sent
  {
    hide NodeOk, HistoryOk, Step;
    NoRival(h, ids, n, f);
    HearsAny(f, n);
  }

  lemma HearsAny(f: Node, n: Node)
    requires n.role.Leader? && Following(f, n) && n.id in f.peers && n.log.term > 0
    requires f.log.term == n.log.term ==> !f.role.Leader? && (f.role.Follower? ==> f.role.leader in {None, Some(n.id)})
    requires n.log.entries != [] && n.log.commitIndex <= |n.log.entries|
    ensures var o := Step(f, Mail(n, f.id, Heartbeat(|n.log.entries|, n.log.commitIndex, n.role.readSeq)));
      var has := Has(f.log.entries, |n.log.entries|, n.log.term);
      && Follows(o.node, n) && o.node.log.entries == f.log.entries
      && (Follows(f, n) ==> o.node.role == f.role)
      && (has ==> o.node.log.commitIndex >= n.log.commitIndex)
      && Envelope(f.id, n.log.term, n.id,
        HeartbeatResponse(if has then |n.log.entries| else 0, n.role.readSeq)) in o.sent
  {
    hide StepFollower, Has, Aborts;
    var e := Mail(n, f.id, Heartbeat(|n.log.entries|, n.log.commitIndex, n.role.readSeq));
    if f.log.term < n.log.term {
      FollowerHears(EnterTerm(f, n.log.term).node, n);
    } else if f.role.Follower? {
      FollowerHears(f, n);
    } else {
      FollowerHears(f.(role := Follower(Some(n.id), {})), n);
    }
  }

  lemma FollowerHears(f: Node, n: Node)
    requires f.role.Follower? && f.role.leader in {None, Some(n.id)} && n.id in f.peers && f.log.term == n.log.term
    requires n.role.Leader? && n.log.entries != [] && n.log.commitIndex <= |n.log.entries|
    ensures var o := StepFollower(f, Mail(n, f.id, Heartbeat(|n.log.entries|, n.log.commitIndex, n.role.readSeq)));
      var has := Has(f.log.entries, |n.log.entries|, n.log.term);
      && Follows(o.node, n) && o.node.log.entries == f.log.entries
      && (Follows(f, n) ==> o.node.role == f.role)
      && (has ==> o.node.log.commitIndex >= n.log.commitIndex)
      && Envelope(f.id, n.log.term, n.id,
        HeartbeatResponse(if has then |n.log.entries| else 0, n.role.readSeq)) in o.sent
  {
    hide OnHeartbeat;
    Answers(HearLeader(f, n.id).node, n);
  }

  lemma Answers(f: Node, n: Node)
    requires Follows(f, n) && n.role.Leader? && n.log.entries != [] && n.log.commitIndex <= |n.log.entries|
    ensures var o := OnHeartbeat(f, n.id, |n.log.entries|, n.log.commitIndex, n.role.readSeq);
      var has := Has(f.log.entries, |n.log.entries|, n.log.term);
      && Follows(o.node, n) && o.node.log.entries == f.log.entries && o.node.role == f.role
      && (has ==> o.node.log.commitIndex >= n.log.commitIndex)
      && Envelope(f.id, n.log.term, n.id,
        HeartbeatResponse(if has then |n.log.entries| else 0, n.role.readSeq)) in o.sent
  {}

  /** A follower rejects an append exactly if it lacks its base entry. */
  lemma Rejects(f: Node, n: Node, m: Message)
    requires Follows(f, n) && n.id in f.peers && m.Append?
    requires m.entries != [] ==> m.entries[0].index == m.baseIndex + 1
    requires m.baseIndex <= |n.log.entries| && m.baseTerm == TermAt(n.log.entries, m.baseIndex)
    requires !RaftProbe.Agrees(n.log.entries, f.log.entries, m.baseIndex)
    ensures Step(f, Mail(n, f.id, m))
         == Out(f, {Mail(f, n.id, AppendResponse(0, RaftProbe.RejectIndex(f.log.entries, m.baseIndex)))})
  {}

  lemma Takes(f: Node, n: Node, m: Message)
    requires Follows(f, n) && n.id in f.peers && m.Append?
    requires m.entries != [] ==> m.entries[0].index == m.baseIndex + 1
    ensures Step(f, Mail(n, f.id, m)) == OnAppend(f, n.id, m.baseIndex, m.baseTerm, m.entries)
  {
    hide OnAppend;
  }

  // ---------------------------------------------------------------- runs that go on

  /** The run goes on without restarts; only these nodes act. */
  ghost predicate Extends(run: Run, run': Run, who: set<NodeID>) {
    && run.Valid() && run'.Valid() && run.states <= run'.states && run.actions <= run'.actions
    && Last(run').nodes.Keys == Last(run).nodes.Keys && Last(run).net <= Last(run').net
    && (forall s :: s in Last(run).nodes && s !in who ==> Last(run').nodes[s] == Last(run).nodes[s])
    && forall i :: |run.actions| <= i < |run'.actions| ==> !run'.actions[i].Restart?
  }

  lemma ExtendsTogether(a: Run, b: Run, c: Run, who: set<NodeID>)
    requires Extends(a, b, who) && Extends(b, c, who)
    ensures Extends(a, c, who)
  {
    hide Run.Valid;
  }

  lemma ExtendsMore(a: Run, b: Run, who: set<NodeID>, more: set<NodeID>)
    requires Extends(a, b, who) && who <= more
    ensures Extends(a, b, more)
  {
    hide Run.Valid;
  }

  lemma ExtendsMeans(a: Run, b: Run, who: set<NodeID>)
    requires Extends(a, b, who)
    ensures a.Valid() && a.states != [] && b.states != []
    ensures b.Valid() && a.states <= b.states && Last(b).nodes.Keys == Last(a).nodes.Keys && Last(a).net <= Last(b).net
  {
    hide Init, Next;
  }

  lemma ExtendsSelf(run: Run, who: set<NodeID>)
    requires run.Valid()
    ensures Extends(run, run, who)
  {
    hide Init, Next;
  }

  /** One more action that is not a restart. */
  lemma Goes1(run: Run, action: Action, o: Out) returns (run': Run)
    requires run.Valid() && Enabled(Last(run), action) && !action.Restart? && o == Effect(Last(run), action)
    ensures Extends(run, run', {Actor(action)}) && run'.actions == run.actions + [action]
    ensures Last(run') == Cluster(Last(run).nodes[Actor(action) := o.node], Last(run).net + o.sent)
  {
    hide Init, Next, Effect;
    run' := Then(run, action, o);
  }

  /** A node takes a message from the network. */
  lemma Gets(run: Run, e: Envelope) returns (run': Run)
    requires run.Valid() && e in Last(run).net && e.to in Last(run).nodes && e.from != e.to
    ensures Extends(run, run', {e.to})
    ensures var o := Step(Last(run).nodes[e.to], e);
      Last(run') == Cluster(Last(run).nodes[e.to := o.node], Last(run).net + o.sent)
  {
    hide Init, Next, Step;
    run' := Goes1(run, Deliver(e), Step(Last(run).nodes[e.to], e));
  }

  // ---------------------------------------------------------------- a leader and a follower

  /** The leader and another live node at the end of a run, as the invariant has them. */
  ghost predicate Known(run: Run, h: History, ids: set<NodeID>, p: NodeID, q: NodeID) {
    && run.states != [] && Holds(run, h, ids) && p in Last(run).nodes && q in Last(run).nodes && p != q
    && var n, f := Last(run).nodes[p], Last(run).nodes[q];
       && n.id == p && f.id == q && q in n.peers && p in f.peers
       && Paired(h, ids, n, f) && Sound(n) && Indexed(n.log.entries) && n.log.commitIndex <= |n.log.entries|
  }

  /** The first node leads, and the other is live in no later term. */
  predicate Leading(run: Run, p: NodeID, q: NodeID) {
    && run.states != [] && p in Last(run).nodes && q in Last(run).nodes && p != q
    && Last(run).nodes[p].role.Leader? && Following(Last(run).nodes[q], Last(run).nodes[p])
  }

  lemma Knows(run: Run, p: NodeID, q: NodeID) returns (h: History, ids: set<NodeID>)
    requires run.Valid() && Leading(run, p, q)
    ensures Known(run, h, ids, p, q)
  {
    hide Init, Next, NodeOk, MailOk, HistoryOk, Sound, Prompt, Indexed;
    h, ids := RaftRuns.Held(run);
    HeldNode(run, h, ids, p);
    HeldNode(run, h, ids, q);
    HeldIds(run, h, ids);
    var n := Last(run).nodes[p];
    DutifulAt(run, |run.states| - 1, p);
    SoundNow(h, ids, n);
    ProposeReady(h, ids, n);
    CommitWithin(h, ids, n);
  }

  lemma CommitWithin(h: History, ids: set<NodeID>, n: Node)
    requires NodeOk(h, ids, n)
    ensures n.log.commitIndex <= |n.log.entries|
  {}

  /** The nodes with the append in flight. */
  ghost predicate Appending(run: Run, p: NodeID, q: NodeID, m: Message) {
    && Leading(run, p, q) && Follows(Last(run).nodes[q], Last(run).nodes[p]) && Last(run).nodes[p].id == p
    && Envelope(p, Last(run).nodes[p].log.term, q, m) in Last(run).net
    && RaftProbe.LastSent(Last(run).nodes[p], q, m)
  }

  lemma Flight(run: Run, h: History, ids: set<NodeID>, p: NodeID, q: NodeID, m: Message)
    requires Known(run, h, ids, p, q) && Appending(run, p, q, m)
    ensures var x := RaftProbe.Exchange(Last(run).nodes[p], Last(run).nodes[q], Some(m)); RaftProbe.Syncing(h, ids, x)
    ensures m.entries != [] ==> m.entries[0].index == m.baseIndex + 1
    ensures m.baseIndex + |m.entries| <= |Last(run).nodes[p].log.entries|
    ensures m.baseTerm == TermAt(Last(run).nodes[p].log.entries, m.baseIndex)
  {
    hide NodeOk, MailOk, HistoryOk, Sound, TermAt;
    var n := Last(run).nodes[p];
    var e := Envelope(p, n.log.term, q, m);
    HeldMail(run, h, ids, e);
    var x := RaftProbe.Exchange(n, Last(run).nodes[q], Some(m));
    RaftProbe.FlightInRun(h, ids, x, e);
    assert AppendFits(n.log.entries, m.baseIndex, m.baseTerm, m.entries);
    if m.entries != [] { assert m.entries[0] == n.log.entries[m.baseIndex]; }
  }

  /** What a round of the exchange reaches: the end of the log, or a step towards it. */
  ghost predicate Nearer(run: Run, run': Run, p: NodeID, q: NodeID, m: Message, m': Message)
    requires Appending(run, p, q, m)
  {
    && Extends(run, run', {p, q}) && Leading(run', p, q)
    && var n, n' := Last(run).nodes[p], Last(run').nodes[p];
       && On(n, n') && q in n'.role.progress && q in n.role.progress
       && Last(run').nodes[q].role == Last(run).nodes[q].role && Follows(Last(run').nodes[q], n')
       && n'.role.progress[q].matchIndex <= |n.log.entries|
       && (n'.role.progress[q].matchIndex == |n.log.entries| ||
           (Appending(run', p, q, m') &&
             (n'.role.progress[q].matchIndex > n.role.progress[q].matchIndex
              || (n'.role.progress[q].matchIndex == n.role.progress[q].matchIndex && m'.baseIndex < m.baseIndex))))
  }

  lemma StepsLeader(n: Node, q: NodeID, m: Message)
    requires n.role.Leader? && q in n.peers
    ensures Step(n, Envelope(q, n.log.term, n.id, m)) == StepLeader(n, Envelope(q, n.log.term, n.id, m))
  {
    hide StepLeader;
  }

  /** A rejected append is followed by one at an earlier base. */
  lemma RejectedRun(run: Run, p: NodeID, q: NodeID, m: Message) returns (run': Run, m': Message)
    requires run.Valid() && Appending(run, p, q, m)
    requires !RaftProbe.Agrees(Last(run).nodes[p].log.entries, Last(run).nodes[q].log.entries, m.baseIndex)
    ensures Nearer(run, run', p, q, m, m')
  {
    hide Init, Next, Step, Known, Sound, Paired, Indexed, On, OnAppendResponse, RaftProbe.Agrees;
    hide RaftProbe.Syncing, RaftProbe.RejectIndex, TermAt, Extends;
    var h, ids := Knows(run, p, q);
    Flight(run, h, ids, p, q, m);
    var n, f := Last(run).nodes[p], Last(run).nodes[q];
    KnownParts(run, h, ids, p, q);
    var r := RaftProbe.RejectIndex(f.log.entries, m.baseIndex);
    FlightRejected(h, ids, n, f, m);
    Rejects(f, n, m);
    var run1 := Gets(run, Envelope(p, n.log.term, q, m));
    ExtendsMeans(run, run1, {q});
    var reply := Envelope(q, n.log.term, p, AppendResponse(0, r));
    m' := Retries(n, q, r);
    StepsLeader(n, q, reply.message);
    var run2 := Gets(run1, reply);
    ExtendsMeans(run1, run2, {p});
    run' := run2;
    Paces(run, run1, run2, p, q);
    OnMeans(n, Last(run').nodes[p]);
  }

  lemma KnownParts(run: Run, h: History, ids: set<NodeID>, p: NodeID, q: NodeID)
    requires Known(run, h, ids, p, q)
    ensures run.states != [] && p in Last(run).nodes && q in Last(run).nodes
    ensures var n, f := Last(run).nodes[p], Last(run).nodes[q];
      && n.role.Leader? && n.id == p && f.id == q && q in n.peers && p in f.peers && q in n.role.progress
      && Sound(n) && Indexed(n.log.entries) && Paired(h, ids, n, f)
      && n.log.entries != [] && n.log.commitIndex <= |n.log.entries| && n.role.progress.Keys == n.peers
      && n.role.progress[q].matchIndex <= |n.log.entries|
  {
    hide NodeOk, HistoryOk, MailOk, Prompt, Indexed;
  }

  lemma OnMeans(n: Node, n': Node)
    requires On(n, n')
    ensures n'.role.Leader? && n.role.Leader? && n'.log.term == n.log.term && n'.log.entries == n.log.entries
    ensures n'.id == n.id && n'.role.progress.Keys == n.role.progress.Keys && n'.role.readSeq == n.role.readSeq
  {}

  lemma Paces(a: Run, b: Run, c: Run, p: NodeID, q: NodeID)
    requires Extends(a, b, {q}) && Extends(b, c, {p})
    ensures Extends(a, c, {p, q})
  {
    hide Extends;
    ExtendsMore(a, b, {q}, {p, q});
    ExtendsMore(b, c, {p}, {p, q});
    ExtendsTogether(a, b, c, {p, q});
  }

  lemma FlightRejected(h: History, ids: set<NodeID>, n: Node, f: Node, m: Message)
    requires RaftProbe.Syncing(h, ids, RaftProbe.Exchange(n, f, Some(m)))
    requires !RaftProbe.Agrees(n.log.entries, f.log.entries, m.baseIndex)
    ensures var r, pr := RaftProbe.RejectIndex(f.log.entries, m.baseIndex), n.role.progress[f.id];
      pr.matchIndex < r <= m.baseIndex && r < pr.nextIndex && m.baseIndex <= |n.log.entries|
  {
    hide NodeOk, HistoryOk, Indexed, TermAt, RaftProbe.Agrees;
    RaftProbe.FitsLog(n.log.entries, m);
    RaftProbe.RejectionLowers(n.log.entries, f.log.entries, n.role.progress[f.id], m.baseIndex);
  }

  /** An accepted append advances the match index to its end. */
  lemma AcceptedRun(run: Run, p: NodeID, q: NodeID, m: Message) returns (run': Run, m': Message)
    requires run.Valid() && Appending(run, p, q, m)
    requires RaftProbe.Agrees(Last(run).nodes[p].log.entries, Last(run).nodes[q].log.entries, m.baseIndex)
    ensures Nearer(run, run', p, q, m, m')
  {
    hide Init, Next, Step, Known, Sound, Paired, Indexed, On, OnAppend, OnAppendResponse, RaftProbe.Agrees;
    hide RaftProbe.Syncing;
    var h, ids := Knows(run, p, q);
    Flight(run, h, ids, p, q, m);
    var n, f := Last(run).nodes[p], Last(run).nodes[q];
    KnownParts(run, h, ids, p, q);
    RaftProbe.AcceptedShape(h, ids, RaftProbe.Exchange(n, f, Some(m)));
    Takes(f, n, m);
    var end := m.baseIndex + |m.entries|;
    var run1 := Gets(run, Envelope(p, n.log.term, q, m));
    var reply := Envelope(q, n.log.term, p, AppendResponse(end, 0));
    m' := Advances(n, q, end);
    StepsLeader(n, q, reply.message);
    var run2 := Gets(run1, reply);
    run' := run2;
    Paces(run, run1, run2, p, q);
    OnMeans(n, Last(run').nodes[p]);
  }

  lemma AppendsIt(run: Run, p: NodeID, q: NodeID, m: Message)
    requires Appending(run, p, q, m)
    ensures m.Append?
  {}

  /** Replication completes over a run: the leader's whole log is known to be in the follower's. */
  lemma {:induction false} CatchesUp(run: Run, p: NodeID, q: NodeID, m: Message) returns (run': Run)
    requires run.Valid() && Appending(run, p, q, m)
    ensures Extends(run, run', {p, q}) && Leading(run', p, q)
    ensures var n, n' := Last(run).nodes[p], Last(run').nodes[p];
      && On(n, n') && q in n'.role.progress && n'.role.progress[q].matchIndex == |n.log.entries|
      && Last(run').nodes[q].role == Last(run).nodes[q].role && Follows(Last(run').nodes[q], n')
    decreases |Last(run).nodes[p].log.entries| - Last(run).nodes[p].role.progress[q].matchIndex, m.baseIndex
  {
    hide Init, Next, Extends, On, RaftProbe.Agrees, RaftProbe.LastSent;
    var m': Message;
    assert m.Append? by { AppendsIt(run, p, q, m); }
    if RaftProbe.Agrees(Last(run).nodes[p].log.entries, Last(run).nodes[q].log.entries, m.baseIndex) {
      run', m' := AcceptedRun(run, p, q, m);
    } else {
      run', m' := RejectedRun(run, p, q, m);
    }
    var n, n' := Last(run).nodes[p], Last(run').nodes[p];
    OnMeans(n, n');
    if n'.role.progress[q].matchIndex != |n.log.entries| {
      ExtendsMeans(run, run', {p, q});
      var run2 := CatchesUp(run', p, q, m');
      ExtendsTogether(run, run', run2, {p, q});
      OnTogether(n, n', Last(run2).nodes[p]);
      run' := run2;
    }
  }

  // ---------------------------------------------------------------- one heartbeat, and what follows from it

  /** A peer known to have the whole log has it. */
  lemma HasMatched(h: History, ids: set<NodeID>, n: Node, f: Node)
    requires Paired(h, ids, n, f) && n.log.entries != [] && f.id in n.role.progress
    requires n.log.entries[|n.log.entries| - 1].term == n.log.term
    requires n.role.progress[f.id].matchIndex >= |n.log.entries|
    ensures Has(f.log.entries, |n.log.entries|, n.log.term) && n.log.entries <= f.log.entries
  {
    hide BallotsOk, AcksOk, CommitsOk, ArrivalsOk, VoteMatches, CommitsKept, TermCurrent, EntriesOk, PendingOk, WriteOk,
      Confirmed, ReignsOk;
    PeerHolds(h, ids, n, f);
    assert PeerOk(h, n.log.term, f.id, n.role.progress[f.id]);
    assert f.log.term == n.log.term;
    assert f.log.entries[..|n.log.entries|] == n.log.entries;
  }

  /**
   * What a heartbeat to a live node brings about, from the state `run` ends in: the node follows the leader, which
   * knows it to hold its whole log and to have confirmed its reads; and what the leader had committed is committed
   * there too, if it had the whole log already.
   */
  ghost predicate Synced(run: Run, run': Run, p: NodeID, q: NodeID)
    requires Leading(run, p, q)
  {
    && Leading(run', p, q)
    && var n, f, n', f' := Last(run).nodes[p], Last(run).nodes[q], Last(run').nodes[p], Last(run').nodes[q];
       && Follows(f', n') && (Follows(f, n) ==> f'.role == f.role)
       && q in n'.role.progress
       && n'.role.progress[q].matchIndex >= |n.log.entries| && n'.role.progress[q].readSeq >= n.role.readSeq
       && (Has(f.log.entries, |n.log.entries|, n.log.term) ==> f'.log.commitIndex >= n.log.commitIndex)
  }

  lemma SyncOne(run: Run, p: NodeID, q: NodeID) returns (run': Run)
    requires run.Valid() && Leading(run, p, q)
    ensures Extends(run, run', {p, q}) && On(Last(run).nodes[p], Last(run').nodes[p]) && Synced(run, run', p, q)
  {
    hide Init, Next, Step, Tick, Known, Sound, Paired, Indexed, On, OnHeartbeatResponse, RaftProbe.LastSent, Extends;
    hide Has;
    var h, ids := Knows(run, p, q);
    KnownParts(run, h, ids, p, q);
    var n, f := Last(run).nodes[p], Last(run).nodes[q];
    var l := |n.log.entries|;
    Beats(n, q);
    var run1 := Goes1(run, Timeout(p), Tick(n));
    ExtendsMeans(run, run1, {p});
    Hears(h, ids, n, f);
    var run2 := Gets(run1, Mail(n, q, Heartbeat(l, n.log.commitIndex, n.role.readSeq)));
    ExtendsMeans(run1, run2, {q});
    var has := Has(f.log.entries, l, n.log.term);
    if !has { LacksLast(h, ids, n, f); }
    var reply := HeartbeatResponse(if has then l else 0, n.role.readSeq);
    var m := Replied(n, q, if has then l else 0, n.role.readSeq);
    StepsLeader(n, q, reply);
    var run3 := Gets(run2, Envelope(q, n.log.term, p, reply));
    ExtendsMeans(run2, run3, {p});
    ExtendsMore(run, run1, {p}, {p, q});
    Paces(run1, run2, run3, p, q);
    ExtendsTogether(run, run1, run3, {p, q});
    OnMeans(n, Last(run3).nodes[p]);
    run' := run3;
    if !has {
      run' := CatchesUp(run3, p, q, m);
      ExtendsTogether(run, run3, run', {p, q});
      SyncedLater(n, Last(run3).nodes[p], Last(run').nodes[p], q);
    }
  }

  lemma LacksLast(h: History, ids: set<NodeID>, n: Node, f: Node)
    requires Paired(h, ids, n, f) && Sound(n) && f.id in n.role.progress
    requires !Has(f.log.entries, |n.log.entries|, n.log.term)
    ensures n.role.progress[f.id].matchIndex < |n.log.entries|
  {
    hide NodeOk, HistoryOk, Prompt;
    if n.role.progress[f.id].matchIndex >= |n.log.entries| { HasMatched(h, ids, n, f); }
  }

  lemma SyncedLater(a: Node, b: Node, c: Node, q: NodeID)
    requires On(a, b) && On(b, c) && q in a.role.progress
    ensures On(a, c) && q in b.role.progress && q in c.role.progress
    ensures c.role.progress[q].readSeq >= b.role.progress[q].readSeq
  {}

  // ---------------------------------------------------------------- a majority

  /** The exchange with each of these nodes is done; the others are as before. */
  ghost predicate SyncedBut(run: Run, run': Run, p: NodeID, live: set<NodeID>, todo: set<NodeID>)
    requires run.states != [] && run'.states != []
  {
    && Leads(run, p, live) && Leads(run', p, live) && todo <= live - {p}
    && On(Last(run).nodes[p], Last(run').nodes[p])
    && (forall q :: q in todo ==> Last(run').nodes[q] == Last(run).nodes[q])
    && forall q :: q in live && q != p && q !in todo ==> Synced(run, run', p, q)
  }

  lemma SyncNext(run: Run, run1: Run, p: NodeID, live: set<NodeID>, todo: set<NodeID>, q: NodeID) returns (run2: Run)
    requires run.Valid() && run1.Valid() && SyncedBut(run, run1, p, live, todo) && q in todo
    ensures Extends(run1, run2, {p, q}) && run2.states != [] && SyncedBut(run, run2, p, live, todo - {q})
  {
    hide Init, Next, On, Synced, Extends;
    run2 := SyncOne(run1, p, q);
    ExtendsMeans(run1, run2, {p, q});
    OthersKept(run1, run2, {p, q});
    var n, n1, n2 := Last(run).nodes[p], Last(run1).nodes[p], Last(run2).nodes[p];
    OnTogether(n, n1, n2);
    OnMeans(n, n1);
    OnMeans(n1, n2);
    assert Synced(run, run2, p, q) by { SyncedFrom(run, run1, run2, p, q); }
    forall r | r in live && r != p && r !in todo ensures Synced(run, run2, p, r) {
      SyncedOn(run, run1, run2, p, r);
    }
    SyncedLeading(run1, run2, p, q);
    SyncLeads(run1, run2, p, live, q);
  }

  lemma SyncedLeading(run: Run, run': Run, p: NodeID, q: NodeID)
    requires Leading(run, p, q) && Synced(run, run', p, q)
    ensures Leading(run', p, q)
  {}

  lemma OthersKept(run: Run, run': Run, who: set<NodeID>)
    requires Extends(run, run', who)
    ensures forall s :: s in Last(run).nodes && s !in who ==>
      s in Last(run').nodes && Last(run').nodes[s] == Last(run).nodes[s]
  {
    hide Run.Valid;
  }

  lemma SyncLeads(run: Run, run': Run, p: NodeID, live: set<NodeID>, q: NodeID)
    requires run.states != [] && run'.states != [] && Leads(run, p, live) && Leading(run', p, q)
    requires Last(run').nodes.Keys == Last(run).nodes.Keys
    requires Last(run').nodes[p].log.term == Last(run).nodes[p].log.term
    requires forall s :: s in Last(run).nodes && s != p && s != q ==> Last(run').nodes[s] == Last(run).nodes[s]
    ensures Leads(run', p, live)
  {}

  /** The other node was as at the start until the exchange. */
  lemma SyncedFrom(run: Run, run1: Run, run2: Run, p: NodeID, q: NodeID)
    requires Leading(run, p, q) && Leading(run1, p, q) && Synced(run1, run2, p, q)
    requires On(Last(run).nodes[p], Last(run1).nodes[p]) && Last(run1).nodes[q] == Last(run).nodes[q]
    ensures Synced(run, run2, p, q)
  {
    hide Has;
  }

  /** The exchange with one node leaves what others have done. */
  lemma SyncedOn(run: Run, run1: Run, run2: Run, p: NodeID, r: NodeID)
    requires Leading(run, p, r) && Synced(run, run1, p, r) && run2.states != [] && p in Last(run2).nodes
    requires On(Last(run1).nodes[p], Last(run2).nodes[p])
    requires r in Last(run2).nodes && Last(run2).nodes[r] == Last(run1).nodes[r]
    ensures Synced(run, run2, p, r)
  {
    hide Has;
  }

  lemma {:induction false} SyncSome(run: Run, run1: Run, p: NodeID, live: set<NodeID>, todo: set<NodeID>)
    returns (run2: Run)
    requires Extends(run, run1, live) && SyncedBut(run, run1, p, live, todo)
    ensures Extends(run, run2, live) && run2.states != [] && SyncedBut(run, run2, p, live, {})
    decreases |todo|
  {
    hide Extends, SyncedBut;
    ExtendsMeans(run, run1, live);
    if todo == {} {
      run2 := run1;
    } else {
      var q :| q in todo;
      assert p in live && q in live by { SyncedIn(run, run1, p, live, todo); }
      var next := SyncNext(run, run1, p, live, todo, q);
      ExtendsMore(run1, next, {p, q}, live);
      ExtendsTogether(run, run1, next, live);
      run2 := SyncSome(run, next, p, live, todo - {q});
    }
  }

  lemma SyncedIn(run: Run, run': Run, p: NodeID, live: set<NodeID>, todo: set<NodeID>)
    requires run.states != [] && run'.states != [] && SyncedBut(run, run', p, live, todo)
    ensures p in live && todo <= live && Leads(run, p, live) && Leads(run', p, live)
  {
    hide On;
  }

  /** The leader exchanges heartbeats, and what follows from them, with all live nodes. */
  lemma SyncAll(run: Run, p: NodeID, live: set<NodeID>) returns (run': Run)
    requires run.Valid() && Leads(run, p, live)
    ensures Extends(run, run', live) && run'.states != [] && SyncedBut(run, run', p, live, {})
  {
    hide Init, Next;
    ExtendsSelf(run, live);
    run' := SyncSome(run, run, p, live, live - {p});
  }

  /** A leader at the end of a run, as the invariant has it. */
  lemma SoundAt(run: Run, p: NodeID) returns (h: History, ids: set<NodeID>)
    requires run.Valid() && p in Last(run).nodes && Last(run).nodes[p].role.Leader?
    ensures Holds(run, h, ids) && HistoryOk(h, ids) && NodeOk(h, ids, Last(run).nodes[p])
    ensures var n := Last(run).nodes[p];
      && Sound(n) && n.id == p && n.log.commitIndex <= |n.log.entries|
      && n.log.commitTerm == TermAt(n.log.entries, n.log.commitIndex)
  {
    hide Init, Next, NodeOk, MailOk, HistoryOk, Sound, Prompt;
    h, ids := RaftRuns.Held(run);
    HeldNode(run, h, ids, p);
    DutifulAt(run, |run.states| - 1, p);
    SoundNow(h, ids, Last(run).nodes[p]);
    CommitsAre(h, ids, Last(run).nodes[p]);
  }

  lemma CommitsAre(h: History, ids: set<NodeID>, n: Node)
    requires NodeOk(h, ids, n)
    ensures n.log.commitIndex <= |n.log.entries| && n.log.commitTerm == TermAt(n.log.entries, n.log.commitIndex)
  {}

  /** The leader has committed and applied its whole log. */
  predicate AllDone(n: Node) {
    n.log.commitIndex == |n.log.entries| && n.applied == n.log.entries && n.log.commitTerm >= n.log.term
  }

  /** After the exchange with a majority, the leader has committed and applied its whole log. */
  lemma AllCommitted(run: Run, run': Run, p: NodeID, live: set<NodeID>)
    requires run.states != [] && run'.Valid() && SyncedBut(run, run', p, live, {})
    requires 2 * |live| > |Last(run').nodes.Keys|
    ensures AllDone(Last(run').nodes[p])
  {
    hide Init, Next, Sound, On, NodeOk, HistoryOk, Holds;
    var h, ids := SoundAt(run', p);
    var n, n' := Last(run).nodes[p], Last(run').nodes[p];
    LastIsOwn(n');
    assert On(n, n');
    OnMeans(n, n');
    var l := |n'.log.entries|;
    forall q | q in live ensures q in Holders(n', l) {
      if q != p { assert Synced(run, run', p, q); }
    }
    SubsetSize(live, Holders(n', l));
    CommittedExactly(run', |run'.states| - 1, p, l);
    CommittedIsApplied(run', |run'.states| - 1, p);
    assert CommittedPrefix(n') == n'.log.entries;
  }

  lemma LastIsOwn(n: Node)
    requires Sound(n)
    ensures n.log.entries != [] && n.log.entries[|n.log.entries| - 1].term == n.log.term
    ensures TermAt(n.log.entries, |n.log.entries|) == n.log.term && n.role.Leader?
  {
    hide Ordered, Within, Tallied, Served;
  }

  // ---------------------------------------------------------------- requests

  /** The write is pending at the end of the log, or answered. */
  ghost predicate WriteTaken(n: Node, o: Out, from: NodeID, id: RequestID) {
    && o.node.role.Leader?
    && var l := |o.node.log.entries|;
       || (l in o.node.role.writes && o.node.role.writes[l] == PendingWrite(from, id))
       || (l <= |o.node.applied| && Mail(n, from, ClientResponse(id, WriteAnswer(o.node.applied[..l]))) in o.sent)
  }

  /** The leader goes on in its term, with the same peers. */
  predicate StaysLeader(n: Node, n': Node) {
    && n.role.Leader? && n'.role.Leader? && n'.id == n.id && n'.log.term == n.log.term && n'.peers == n.peers
  }

  lemma TakesWrite(h: History, ids: set<NodeID>, n: Node, from: NodeID, id: RequestID, c: Command)
    requires HistoryOk(h, ids) && NodeOk(h, ids, n) && Sound(n) && (from in n.peers || from == n.id)
    ensures var o := Step(n, Envelope(from, n.log.term, n.id, ClientRequest(id, WriteRequest(c))));
      && StaysLeader(n, o.node) && WriteTaken(n, o, from, id)
      && o.node.log.entries == n.log.entries + [Entry(|n.log.entries| + 1, n.log.term, Some(c))]
  {
    hide HistoryOk, NodeOk, Propose, MaybeCommit, Prompt, Fit, Tallied, Served, Backed, Goes, Indexed;
    assert n.role.Leader? by { PromptLeads(n); }
    CountedBacked(n);
    ProposeReady(h, ids, n);
    ProposeShape(n, Some(c));
    ProposeServes(n, Some(c));
    var o1 := Propose(n, Some(c));
    var l := |o1.node.log.entries|;
    var n1 := o1.node.(role := o1.node.role.(writes := o1.node.role.writes[l := PendingWrite(from, id)]));
    WritesGrown(n, o1, n1);
    if ClusterSize(n1) == 1 {
      CommitServes(n1);
      PromptLeads(MaybeCommit(n1).node);
      GoesLeader(n1, MaybeCommit(n1));
      WriteGoesOn(n1, MaybeCommit(n1), l);
    }
  }

  lemma WriteGoesOn(n: Node, o: Out, i: Index)
    requires n.role.Leader? && Goes(n, o) && o.node.role.Leader? && i in n.role.writes
    ensures (i in o.node.role.writes && o.node.role.writes[i] == n.role.writes[i])
      || (i <= |o.node.applied| && WriteTold(n, i, o.node.applied, o.sent))
  {}

  lemma TakesRead(n: Node, from: NodeID, id: RequestID, c: Command) returns (r: PendingRead)
    requires Sound(n) && (from in n.peers || from == n.id)
    ensures var o := Step(n, Envelope(from, n.log.term, n.id, ClientRequest(id, ReadRequest(c))));
      && StaysLeader(n, o.node) && o.node.log.entries == n.log.entries
      && r.from == from && r.id == id && r.command == c && r.readSeq <= o.node.role.readSeq
      && (r in o.node.role.queue || ReadSent(o.sent, n.id, n.log.term, r))
  {
    hide MaybeRead, Prompt, Fit, Tallied, Served, Goes, QuorumSize;
    assert n.role.Leader? by { PromptLeads(n); }
    r := PendingRead(n.role.readSeq + 1, from, id, c);
    Queues(n, from, id, c);
    var m := AcceptRead(n, from, id, c).node;
    assert m.role.queue[|n.role.queue|] == r;
    if ClusterSize(n) == 1 {
      ReadServes(m);
      GoesLeader(m, MaybeRead(m));
      ReadGoesOn(m, MaybeRead(m), r);
    }
  }

  lemma ReadGoesOn(n: Node, o: Out, r: PendingRead)
    requires n.role.Leader? && Goes(n, o) && o.node.role.Leader? && r in n.role.queue
    ensures r in o.node.role.queue || ReadSent(o.sent, n.id, n.log.term, r)
  {
    if r !in o.node.role.queue {
      var state :| Mail(n, r.from, ClientResponse(r.id, ReadAnswer(r.command, state))) in o.sent;
    }
  }

  /** The node is the leader, or follows it. */
  ghost predicate Serving(run: Run, p: NodeID, q: NodeID) {
    && run.states != [] && p in Last(run).nodes && Last(run).nodes[p].role.Leader?
    && (q != p ==> Leading(run, p, q) && Follows(Last(run).nodes[q], Last(run).nodes[p]))
  }

  /** The request waits for its answer: at the leader's own client there is nothing to wait for. */
  predicate Waiting(f: Node, p: NodeID, id: RequestID) {
    f.id != p ==> f.role.Follower? && id in f.role.forwarded
  }

  /** A client's request reaches the leader, by way of the node it was made at. */
  lemma Brings(run: Run, p: NodeID, q: NodeID, id: RequestID, request: Request) returns (run': Run)
    requires run.Valid() && Serving(run, p, q)
    requires StaysLeader(Last(run).nodes[p],
      Step(Last(run).nodes[p], Envelope(q, Last(run).nodes[p].log.term, p, ClientRequest(id, request))).node)
    ensures Extends(run, run', {p, q}) && Serving(run', p, q) && Client(q, id, request) in run'.actions[|run.actions|..]
    ensures var n, n' := Last(run).nodes[p], Last(run').nodes[p];
      var o := Step(n, Envelope(q, n.log.term, p, ClientRequest(id, request)));
      && n' == o.node && o.sent <= Last(run').net
      && Waiting(Last(run').nodes[q], p, id) && Last(run').nodes[q].id == q
  {
    hide Init, Next, Step, Known, Sound, Paired;
    var n := Last(run).nodes[p];
    IdsFixed(run, |run.states| - 1, p);
    IdsFixed(run, |run.states| - 1, q);
    var action := Client(q, id, request);
    if q == p {
      run' := Goes1(run, action, Step(n, Submit(n, id, request)));
      ExtendsMore(run, run', {p}, {p, q});
    } else {
      var f := Last(run).nodes[q];
      Forwards(f, id, request);
      var run1 := Goes1(run, action, Step(f, Submit(f, id, request)));
      run' := Gets(run1, Envelope(q, n.log.term, p, ClientRequest(id, request)));
      Paces(run, run1, run', p, q);
      assert run1.actions <= run'.actions;
    }
    assert run'.actions[|run.actions|] == action;
  }

  lemma Forwards(f: Node, id: RequestID, request: Request)
    requires f.role.Follower? && f.role.leader.Some?
    ensures Step(f, Submit(f, id, request))
         == Out(f.(role := f.role.(forwarded := f.role.forwarded + {id})),
                {Mail(f, f.role.leader.value, ClientRequest(id, request))})
  {}

  /** The answer reaches the client, by way of the node the request was made at. */
  lemma Hands(run: Run, p: NodeID, q: NodeID, id: RequestID, response: Response) returns (run': Run)
    requires run.Valid() && Serving(run, p, q) && Waiting(Last(run).nodes[q], p, id) && Last(run).nodes[q].id == q
    requires Envelope(p, Last(run).nodes[p].log.term, q, ClientResponse(id, response)) in Last(run).net
    ensures Extends(run, run', {q}) && Serving(run', p, q) && Last(run').nodes[p] == Last(run).nodes[p]
    ensures Envelope(q, Last(run).nodes[p].log.term, q, ClientResponse(id, response)) in Last(run').net
  {
    hide Init, Next, Step, Known, NodeOk, HistoryOk, MailOk, Sound;
    if q == p {
      run' := run;
      ExtendsSelf(run, {q});
    } else {
      var h, ids := Knows(run, p, q);
      KnownParts(run, h, ids, p, q);
      var n, f := Last(run).nodes[p], Last(run).nodes[q];
      var e := Envelope(p, n.log.term, q, ClientResponse(id, response));
      PassesOn(f, e);
      run' := Gets(run, e);
    }
  }

  lemma PassesOn(f: Node, e: Envelope)
    requires f.role.Follower? && f.role.leader == Some(e.from) && e.from in f.peers && e.term == f.log.term
    requires e.message.ClientResponse? && e.message.id in f.role.forwarded
    ensures Step(f, e)
         == Out(f.(role := f.role.(forwarded := f.role.forwarded - {e.message.id})), {Mail(f, f.id, e.message)})
  {}

  // ---------------------------------------------------------------- the theorems

  /** A live node in a majority comes to follow the leader, which keeps its log. */
  lemma Joins(run: Run, p: NodeID, live: set<NodeID>, q: NodeID) returns (run': Run)
    requires run.Valid() && Leads(run, p, live) && q in live
    ensures Extends(run, run', live) && Leads(run', p, live) && Serving(run', p, q)
    ensures Last(run').nodes[p].log.entries == Last(run).nodes[p].log.entries
    ensures Last(run').nodes[p].log.term == Last(run).nodes[p].log.term
  {
    hide Init, Next, On;
    run' := SyncAll(run, p, live);
    OnMeans(Last(run).nodes[p], Last(run').nodes[p]);
    if q != p { assert Synced(run, run', p, q); }
  }

  /** Another node's part in a request leaves the majority in place. */
  lemma StillLeads(run: Run, run': Run, p: NodeID, live: set<NodeID>, q: NodeID)
    requires run.states != [] && Leads(run, p, live) && q in live && Extends(run, run', {p, q}) && Serving(run', p, q)
    requires StaysLeader(Last(run).nodes[p], Last(run').nodes[p])
    ensures Leads(run', p, live)
  {
    hide Run.Valid;
  }

  /** After the exchange, the node still serves its client. */
  lemma StillServing(run: Run, run': Run, p: NodeID, live: set<NodeID>, q: NodeID, id: RequestID)
    requires run.states != [] && run'.states != [] && SyncedBut(run, run', p, live, {}) && q in live
    requires Serving(run, p, q) && Waiting(Last(run).nodes[q], p, id) && Last(run).nodes[q].id == q
    requires run'.Valid()
    ensures Serving(run', p, q) && Waiting(Last(run').nodes[q], p, id) && Last(run').nodes[q].id == q
  {
    hide Init, Next, On, Has;
    if q != p { assert Synced(run, run', p, q); }
    assert q in Last(run').nodes;
    IdsFixed(run', |run'.states| - 1, q);
  }

  /** What was pending in the leader's hands before the exchange is answered after it. */
  lemma AnsweredAfter(run: Run, run': Run, p: NodeID, live: set<NodeID>, w: PendingWrite, r: PendingRead)
    requires run.Valid() && Extends(run, run', live) && SyncedBut(run, run', p, live, {})
    requires 2 * |live| > |Last(run').nodes.Keys|
    ensures AllDone(Last(run').nodes[p])
    ensures var k, n, n' := |run.states| - 1, Last(run).nodes[p], Last(run').nodes[p]; var l := |n.log.entries|;
      && (WritePends(run, k, p, n.log.term, l, w) ==>
            Envelope(p, n.log.term, w.from, ClientResponse(w.id, WriteAnswer(n.log.entries))) in Last(run').net)
      && (ReadPends(run, k, p, n.log.term, r) && r.readSeq <= n.role.readSeq ==>
            ReadSent(Last(run').net, p, n.log.term, r))
  {
    hide Init, Next, On, WritePends, ReadPends, Within;
    ExtendsMeans(run, run', live);
    SyncedIn(run, run', p, live, {});
    AllCommitted(run, run', p, live);
    var k, k' := |run.states| - 1, |run'.states| - 1;
    var n, n' := Last(run).nodes[p], Last(run').nodes[p];
    OnMeans(n, n');
    PendsLater(run, run', p, live, w, r);
    if ReadPends(run, k, p, n.log.term, r) && r.readSeq <= n.role.readSeq {
      ReadConfirmed(run, run', p, live, r);
    }
    if WritePends(run, k, p, n.log.term, |n.log.entries|, w) {
      WriteDone(run', p, w);
    }
  }

  lemma PendsLater(run: Run, run': Run, p: NodeID, live: set<NodeID>, w: PendingWrite, r: PendingRead)
    requires run.Valid() && Extends(run, run', live) && p in Last(run).nodes && Last(run).nodes[p].role.Leader?
    ensures var k, k', t, l := |run.states| - 1, |run'.states| - 1, Last(run).nodes[p].log.term,
                               |Last(run).nodes[p].log.entries|;
      && run'.At(k', p)
      && (WritePends(run, k, p, t, l, w) ==> WritePends(run', k', p, t, l, w))
      && (ReadPends(run, k, p, t, r) ==> ReadPends(run', k', p, t, r))
  {
    hide Init, Next;
    var k, k' := |run.states| - 1, |run'.states| - 1;
    var n := Last(run).nodes[p];
    assert run'.states[k] == run.states[k];
    PendsUntil(run', k, k', p, n.log.term, |n.log.entries|, w, r);
  }

  /** A write at an index that is applied is no longer pending. */
  lemma WriteDone(run: Run, p: NodeID, w: PendingWrite)
    requires run.Valid() && p in Last(run).nodes && Last(run).nodes[p].role.Leader? && AllDone(Last(run).nodes[p])
    requires var n := Last(run).nodes[p]; WritePends(run, |run.states| - 1, p, n.log.term, |n.log.entries|, w)
    ensures var n := Last(run).nodes[p];
      Envelope(p, n.log.term, w.from, ClientResponse(w.id, WriteAnswer(n.log.entries))) in Last(run).net
  {
    hide Init, Next, Tallied, Served, Ordered;
    DutifulAt(run, |run.states| - 1, p);
    var n := Last(run).nodes[p];
    assert n.applied[..|n.log.entries|] == n.log.entries;
  }

  lemma ReadConfirmed(run: Run, run': Run, p: NodeID, live: set<NodeID>, r: PendingRead)
    requires run.states != [] && run'.Valid() && SyncedBut(run, run', p, live, {})
    requires 2 * |live| > |Last(run').nodes.Keys| && AllDone(Last(run').nodes[p])
    requires r.readSeq <= Last(run).nodes[p].role.readSeq
    requires ReadPends(run', |run'.states| - 1, p, Last(run').nodes[p].log.term, r)
    ensures ReadSent(Last(run').net, p, Last(run').nodes[p].log.term, r)
  {
    hide Init, Next, On, ReadSent;
    var n, n' := Last(run).nodes[p], Last(run').nodes[p];
    OnMeans(n, n');
    if r in n'.role.queue {
      IdsFixed(run', |run'.states| - 1, p);
      forall q | q in live ensures q in Confirmers(n', r.readSeq) {
        if q != p { assert Synced(run, run', p, q); }
      }
      SubsetSize(live, Confirmers(n', r.readSeq));
      ReadsNotHeldBack(run', |run'.states| - 1, p, r);
    }
  }

  lemma LeadsMeans(run: Run, p: NodeID, live: set<NodeID>)
    requires run.states != [] && Leads(run, p, live)
    ensures p in live && live <= Last(run).nodes.Keys && Last(run).nodes[p].role.Leader?
  {}

  lemma ServingMeans(run: Run, p: NodeID, q: NodeID)
    requires Serving(run, p, q)
    ensures run.states != [] && p in Last(run).nodes && Last(run).nodes[p].role.Leader?
    ensures q in Last(run).nodes
  {}

  /** What a majority makes of a request that the leader has taken from node `q`. */
  lemma Finishes(run: Run, p: NodeID, live: set<NodeID>, q: NodeID, id: RequestID, w: PendingWrite, r: PendingRead)
    returns (run': Run)
    requires run.Valid() && Leads(run, p, live) && 2 * |live| > |Last(run).nodes.Keys| && q in live
    requires Serving(run, p, q) && Waiting(Last(run).nodes[q], p, id) && Last(run).nodes[q].id == q
    ensures Extends(run, run', live) && Leads(run', p, live) && Serving(run', p, q) && AllDone(Last(run').nodes[p])
    ensures Waiting(Last(run').nodes[q], p, id) && Last(run').nodes[q].id == q
    ensures var k, n, n' := |run.states| - 1, Last(run).nodes[p], Last(run').nodes[p];
      && n'.log.term == n.log.term && n'.log.entries == n.log.entries
      && (WritePends(run, k, p, n.log.term, |n.log.entries|, w) ==>
            Envelope(p, n.log.term, w.from, ClientResponse(w.id, WriteAnswer(n.log.entries))) in Last(run').net)
      && (ReadPends(run, k, p, n.log.term, r) && r.readSeq <= n.role.readSeq ==>
            ReadSent(Last(run').net, p, n.log.term, r))
  {
    hide Init, Next, On, Serving, Waiting, AllDone, WritePends, ReadPends, ReadSent, Synced;
    run' := SyncAll(run, p, live);
    ExtendsMeans(run, run', live);
    OnMeans(Last(run).nodes[p], Last(run').nodes[p]);
    AnsweredAfter(run, run', p, live, w, r);
    StillServing(run, run', p, live, q, id);
  }

  /** After the answer was passed on, the leader and the majority are as before. */
  lemma EndsWell(run: Run, run': Run, p: NodeID, live: set<NodeID>, q: NodeID)
    requires run.states != [] && Leads(run, p, live) && q in live && Extends(run, run', {q}) && Serving(run', p, q)
    requires Last(run').nodes[p] == Last(run).nodes[p]
    ensures Leads(run', p, live)
  {
    hide Run.Valid;
  }

  lemma Follow(a: Run, b: Run, c: Run, live: set<NodeID>, action: Action)
    requires Extends(a, b, live) && Extends(b, c, live) && action in c.actions[|b.actions|..]
    ensures Extends(a, c, live) && action in c.actions[|a.actions|..]
  {
    hide Run.Valid;
    var i :| |b.actions| <= i < |c.actions| && c.actions[i] == action;
    assert c.actions[|a.actions|..][i - |a.actions|] == action;
  }

  lemma StillIn(a: Run, b: Run, c: Run, who: set<NodeID>, action: Action)
    requires |a.actions| <= |b.actions| && action in b.actions[|a.actions|..] && Extends(b, c, who)
    ensures action in c.actions[|a.actions|..]
  {
    hide Run.Valid;
    var i :| |a.actions| <= i < |b.actions| && b.actions[i] == action;
    assert c.actions[|a.actions|..][i - |a.actions|] == action;
  }

  /** A request of a client at `q` is in the leader's hands. */
  lemma Asks(run: Run, p: NodeID, live: set<NodeID>, q: NodeID, id: RequestID, request: Request) returns (run': Run)
    requires run.Valid() && Leads(run, p, live) && q in live && Serving(run, p, q)
    requires StaysLeader(Last(run).nodes[p],
      Step(Last(run).nodes[p], Envelope(q, Last(run).nodes[p].log.term, p, ClientRequest(id, request))).node)
    ensures Extends(run, run', live) && Leads(run', p, live) && Serving(run', p, q)
    ensures Client(q, id, request) in run'.actions[|run.actions|..]
    ensures Waiting(Last(run').nodes[q], p, id) && Last(run').nodes[q].id == q
    ensures var n, n' := Last(run).nodes[p], Last(run').nodes[p];
      var o := Step(n, Envelope(q, n.log.term, p, ClientRequest(id, request)));
      n' == o.node && o.sent <= Last(run').net
  {
    hide Init, Next, Step, Serving, Waiting;
    LeadsMeans(run, p, live);
    run' := Brings(run, p, q, id, request);
    StillLeads(run, run', p, live, q);
    ExtendsMore(run, run', {p, q}, live);
  }

  /**
   * Writes: whenever a majority of the cluster is live and none of it is ahead of the leader's term, a client of any of
   * these nodes can have a write committed, applied and answered, whatever the logs of the others: the run goes on with
   * the request, and ends with the client told of its write at the end of the leader's log.
   */
  lemma CanWrite(run: Run, p: NodeID, live: set<NodeID>, q: NodeID, id: RequestID, c: Command) returns (run': Run)
    requires run.Valid() && Leads(run, p, live) && 2 * |live| > |Last(run).nodes.Keys| && q in live
    ensures run'.Valid() && run.states <= run'.states && Leads(run', p, live)
    ensures Client(q, id, WriteRequest(c)) in run'.actions[|run.actions|..]
    ensures var n, n' := Last(run).nodes[p], Last(run').nodes[p];
      var state := n.log.entries + [Entry(|n.log.entries| + 1, n.log.term, Some(c))];
      && n'.log.term == n.log.term && n'.log.entries == state && AllDone(n')
      && Envelope(q, n.log.term, q, ClientResponse(id, WriteAnswer(state))) in Last(run').net
  {
    hide Init, Next, Step, Extends, Serving, Waiting, Leads, NodeOk, HistoryOk, Holds, Sound, WritePends, AllDone;
    var run1 := Joins(run, p, live, q);
    LeadsMeans(run, p, live);
    ExtendsMeans(run, run1, live);
    LeadsMeans(run1, p, live);
    var h, ids := SoundAt(run1, p);
    var n1 := Last(run1).nodes[p];
    assert q in n1.peers || q == p by { HeldKeys(run1, h, ids, p, q); }
    TakesWrite(h, ids, n1, q, id, c);
    var o := Step(n1, Envelope(q, n1.log.term, p, ClientRequest(id, WriteRequest(c))));
    var run2 := Asks(run1, p, live, q, id, WriteRequest(c));
    ExtendsMeans(run1, run2, live);
    var w := PendingWrite(q, id);
    WriteStarts(run2, p, n1, o, w);
    var run3 := Finishes(run2, p, live, q, id, w, PendingRead(0, 0, 0, []));
    ExtendsMeans(run2, run3, live);
    LeadsMeans(run3, p, live);
    var state := o.node.log.entries;
    run' := Hands(run3, p, q, id, WriteAnswer(state));
    ExtendsMeans(run3, run', {q});
    EndsWell(run3, run', p, live, q);
    Follow(run, run1, run2, live, Client(q, id, WriteRequest(c)));
    ExtendsMore(run3, run', {q}, live);
    ExtendsTogether(run2, run3, run', live);
    ActionsGrow(run, run1, live);
    ActionsGrow(run1, run2, live);
    StillIn(run, run2, run', live, Client(q, id, WriteRequest(c)));
  }

  lemma ActionsGrow(a: Run, b: Run, who: set<NodeID>)
    requires Extends(a, b, who)
    ensures |a.actions| <= |b.actions|
  {
    hide Run.Valid;
  }

  lemma HeldKeys(run: Run, h: History, ids: set<NodeID>, p: NodeID, q: NodeID)
    requires run.states != [] && Holds(run, h, ids) && p in Last(run).nodes && q in Last(run).nodes
    ensures q in Last(run).nodes[p].peers || q == p
  {
    hide NodeOk, HistoryOk, MailOk;
    HeldNode(run, h, ids, p);
  }

  lemma WriteStarts(run: Run, p: NodeID, n: Node, o: Out, w: PendingWrite)
    requires run.states != [] && p in Last(run).nodes && Last(run).nodes[p] == o.node && o.sent <= Last(run).net
    requires StaysLeader(n, o.node) && n.id == p && WriteTaken(n, o, w.from, w.id)
    ensures WritePends(run, |run.states| - 1, p, o.node.log.term, |o.node.log.entries|, w)
  {}

  lemma ReadStarts(run: Run, p: NodeID, n: Node, o: Out, r: PendingRead)
    requires run.states != [] && p in Last(run).nodes && Last(run).nodes[p] == o.node && o.sent <= Last(run).net
    requires StaysLeader(n, o.node) && n.id == p
    requires r in o.node.role.queue || ReadSent(o.sent, p, n.log.term, r)
    ensures ReadPends(run, |run.states| - 1, p, o.node.log.term, r)
  {
    if r !in o.node.role.queue {
      var state :| Envelope(p, n.log.term, r.from, ClientResponse(r.id, ReadAnswer(r.command, state))) in o.sent;
      assert Envelope(p, n.log.term, r.from, ClientResponse(r.id, ReadAnswer(r.command, state))) in Last(run).net;
    }
  }

  /** Reads: under the same conditions, a client of any of these nodes can have a read answered. */
  lemma CanRead(run: Run, p: NodeID, live: set<NodeID>, q: NodeID, id: RequestID, c: Command)
    returns (run': Run, state: seq<Entry>)
    requires run.Valid() && Leads(run, p, live) && 2 * |live| > |Last(run).nodes.Keys| && q in live
    ensures run'.Valid() && run.states <= run'.states && Leads(run', p, live)
    ensures Client(q, id, ReadRequest(c)) in run'.actions[|run.actions|..]
    ensures var n, n' := Last(run).nodes[p], Last(run').nodes[p];
      && n'.log.term == n.log.term && n'.log.entries == n.log.entries && AllDone(n')
      && Envelope(q, n.log.term, q, ClientResponse(id, ReadAnswer(c, state))) in Last(run').net
  {
    hide Init, Next, Step, Extends, Serving, Waiting, Leads, NodeOk, HistoryOk, Holds, Sound, ReadPends, AllDone;
    var run1 := Joins(run, p, live, q);
    LeadsMeans(run, p, live);
    ExtendsMeans(run, run1, live);
    LeadsMeans(run1, p, live);
    var h, ids := SoundAt(run1, p);
    var n1 := Last(run1).nodes[p];
    assert q in n1.peers || q == p by { HeldKeys(run1, h, ids, p, q); }
    var r := TakesRead(n1, q, id, c);
    var o := Step(n1, Envelope(q, n1.log.term, p, ClientRequest(id, ReadRequest(c))));
    var run2 := Asks(run1, p, live, q, id, ReadRequest(c));
    ExtendsMeans(run1, run2, live);
    ReadStarts(run2, p, n1, o, r);
    var run3 := Finishes(run2, p, live, q, id, PendingWrite(0, 0), r);
    ExtendsMeans(run2, run3, live);
    LeadsMeans(run3, p, live);
    assert ReadSent(Last(run3).net, p, n1.log.term, r);
    state :| Envelope(p, n1.log.term, q, ClientResponse(id, ReadAnswer(c, state))) in Last(run3).net;
    run' := Hands(run3, p, q, id, ReadAnswer(c, state));
    ExtendsMeans(run3, run', {q});
    EndsWell(run3, run', p, live, q);
    Follow(run, run1, run2, live, Client(q, id, ReadRequest(c)));
    ExtendsMore(run3, run', {q}, live);
    ExtendsTogether(run2, run3, run', live);
    ActionsGrow(run, run1, live);
    ActionsGrow(run1, run2, live);
    StillIn(run, run2, run', live, Client(q, id, ReadRequest(c)));
  }

  lemma HasAt(run: Run, p: NodeID, q: NodeID)
    requires run.Valid() && Leading(run, p, q) && q in Last(run).nodes[p].role.progress
    requires Last(run).nodes[p].role.progress[q].matchIndex >= |Last(run).nodes[p].log.entries|
    ensures var n, f := Last(run).nodes[p], Last(run).nodes[q];
      Has(f.log.entries, |n.log.entries|, n.log.term) && n.log.entries <= f.log.entries
  {
    hide Init, Next, Known, Paired, Has, Sound;
    var h, ids := Knows(run, p, q);
    KnownParts(run, h, ids, p, q);
    LastIsOwn(Last(run).nodes[p]);
    HasMatched(h, ids, Last(run).nodes[p], Last(run).nodes[q]);
  }

  /** A second heartbeat tells a peer that the leader has committed all. */
  lemma PeerLearns(run: Run, run1: Run, run2: Run, p: NodeID, q: NodeID)
    requires Leading(run, p, q) && run1.Valid() && run2.Valid() && Synced(run, run1, p, q) && Synced(run1, run2, p, q)
    requires On(Last(run).nodes[p], Last(run1).nodes[p]) && On(Last(run1).nodes[p], Last(run2).nodes[p])
    requires AllDone(Last(run1).nodes[p])
    ensures var log, f := Last(run).nodes[p].log.entries, Last(run2).nodes[q];
      log <= f.log.entries && f.log.commitIndex >= |log| && !f.role.Halted?
  {
    hide Init, Next, Has;
    HasAt(run1, p, q);
    HasAt(run2, p, q);
  }

  lemma Learnt(run: Run, q: NodeID, log: seq<Entry>)
    requires run.Valid() && q in Last(run).nodes && !Last(run).nodes[q].role.Halted?
    requires log <= Last(run).nodes[q].log.entries && Last(run).nodes[q].log.commitIndex >= |log|
    ensures log <= CommittedPrefix(Last(run).nodes[q]) && log <= Last(run).nodes[q].applied
  {
    hide Init, Next;
    CommittedIsApplied(run, |run.states| - 1, q);
    assert Last(run).nodes[q] == run.Node(|run.states| - 1, q);
  }

  /**
   * Followers: under the same conditions, all live nodes come to hold the leader's log, all of it committed and
   * applied.
   */
  lemma CanLearn(run: Run, p: NodeID, live: set<NodeID>) returns (run': Run)
    requires run.Valid() && Leads(run, p, live) && 2 * |live| > |Last(run).nodes.Keys|
    ensures run'.Valid() && run.states <= run'.states && Leads(run', p, live)
    ensures Last(run').nodes[p].log.term == Last(run).nodes[p].log.term
    ensures forall q :: q in live ==>
      var log := Last(run).nodes[p].log.entries;
      log <= CommittedPrefix(Last(run').nodes[q]) && log <= Last(run').nodes[q].applied
  {
    hide Init, Next, On, Extends, Synced, CommittedPrefix;
    var run1 := SyncAll(run, p, live);
    ExtendsMeans(run, run1, live);
    AllCommitted(run, run1, p, live);
    run' := SyncAll(run1, p, live);
    ExtendsMeans(run1, run', live);
    var n, n1, n' := Last(run).nodes[p], Last(run1).nodes[p], Last(run').nodes[p];
    OnMeans(n, n1);
    OnMeans(n1, n');
    OnCommits(n1, n');
    forall q | q in live
      ensures n.log.entries <= CommittedPrefix(Last(run').nodes[q]) && n.log.entries <= Last(run').nodes[q].applied
    {
      if q != p { PeerLearns(run, run1, run', p, q); }
      Learnt(run', q, n.log.entries);
    }
  }

  lemma OnCommits(n: Node, n': Node)
    requires On(n, n')
    ensures n'.log.commitIndex >= n.log.commitIndex
  {}
}
