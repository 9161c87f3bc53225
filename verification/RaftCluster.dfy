/** A Raft cluster as a step relation, and the safety theorems over every run. */
module RaftCluster {
  import opened Common
  import opened RaftLog
  import opened RaftNode
  import opened RaftHistory
  import opened RaftGrowth
  import opened RaftInvariant
  import opened RaftFollower
  import opened RaftLeader
  import opened RaftStep

  // The network only grows, and any message may be delivered any number of times, in any order, or never: loss,
  // reordering and duplication are all runs. A node may restart at any time on its term, vote and entries, with an
  // older commit index and an older state machine. The theorems mention only states and actions of runs.

  datatype Cluster = Cluster(nodes: map<NodeID, Node>, net: set<Envelope>)

  datatype Action =
    | Deliver(e: Envelope)
    | Client(at: NodeID, id: RequestID, request: Request)
    | Timeout(at: NodeID)
    | Restart(at: NodeID, commitIndex: Index, appliedIndex: Index)

  /** A client's request, as the server steps it into its local node (src/server.rs:238-244). */
  function Submit(n: Node, id: RequestID, request: Request): Envelope {
    Envelope(n.id, n.log.term, n.id, ClientRequest(id, request))
  }

  function Actor(a: Action): NodeID {
    match a
    case Deliver(e) => e.to
    case Client(at, _, _) => at
    case Timeout(at) => at
    case Restart(at, _, _) => at
  }

  /** Messages a node sends to itself are answers to local clients, and are never stepped. */
  predicate Enabled(c: Cluster, a: Action) {
    && Actor(a) in c.nodes
    && (a.Deliver? ==> a.e in c.net && a.e.from != a.e.to)
    && (a.Restart? ==> a.commitIndex <= c.nodes[a.at].log.commitIndex && a.appliedIndex <= |c.nodes[a.at].applied|)
  }

  /** What survives a restart: the log is durable, commit index and state machine may regress. */
  function Durable(n: Node, commitIndex: Index, appliedIndex: Index): Node
    requires appliedIndex <= |n.applied|
  {
    n.(log := n.log.(commitIndex := commitIndex, commitTerm := TermAt(n.log.entries, commitIndex)),
       applied := n.applied[..appliedIndex],
       role := Follower(None, {}))
  }

  ghost function Effect(c: Cluster, a: Action): Out
    requires Enabled(c, a)
  {
    var n := c.nodes[Actor(a)];
    match a
    case Deliver(e) => Step(n, e)
    case Client(_, id, request) => Step(n, Submit(n, id, request))
    case Timeout(_) => Tick(n)
    case Restart(_, commitIndex, appliedIndex) =>
      var d := Durable(n, commitIndex, appliedIndex);
      Start(d.id, d.peers, d.maxAppend, d.log, d.applied)
  }

  ghost predicate Next(c: Cluster, a: Action, c': Cluster) {
    && Enabled(c, a)
    && var o := Effect(c, a);
       c'.nodes == c.nodes[Actor(a) := o.node] && c'.net == c.net + o.sent
  }

  ghost predicate Init(c: Cluster, maxAppend: nat) {
    && c.nodes.Keys != {}
    && maxAppend >= 1
    && (forall p {:trigger Started(c, maxAppend, p)} :: p in c.nodes ==> Started(c, maxAppend, p))
    && c.net == {}
  }

  /** A node starts on an empty log, with all others as peers. */
  ghost predicate Started(c: Cluster, maxAppend: nat, p: NodeID)
    requires p in c.nodes
  {
    c.nodes[p] == Start(p, c.nodes.Keys - {p}, maxAppend, EMPTY_LOG, []).node
  }

  datatype Run = Run(maxAppend: nat, states: seq<Cluster>, actions: seq<Action>) {
    predicate Shaped() {
      |states| == |actions| + 1
    }

    ghost predicate Moves(i: nat)
      requires Shaped() && i < |actions|
    {
      Next(states[i], actions[i], states[i + 1])
    }

    ghost predicate Valid() {
      && Shaped()
      && Init(states[0], maxAppend)
      && forall i :: 0 <= i < |actions| ==> Moves(i)
    }

    predicate At(i: nat, p: NodeID) {
      i < |states| && p in states[i].nodes
    }

    function Node(i: nat, p: NodeID): Node
      requires At(i, p)
    {
      states[i].nodes[p]
    }
  }

  /** The prefix a node knows to be committed. */
  function CommittedPrefix(n: Node): seq<Entry> {
    Between(n.log.entries, 0, n.log.commitIndex)
  }

  // ---------------------------------------------------------------- one step

  ghost predicate ClusterOk(c: Cluster, h: History, ids: set<NodeID>) {
    && c.nodes.Keys == ids
    && HistoryOk(h, ids)
    && (forall p :: p in ids ==> c.nodes[p].id == p && NodeOk(h, ids, c.nodes[p]))
    && (forall e :: e in c.net ==> MailOk(h, ids, e))
  }

  function Terms(c: Cluster): map<NodeID, Term> { map p | p in c.nodes :: c.nodes[p].log.term }

  function Delivered(c: Cluster, a: Action): Option<Envelope>
    requires Enabled(c, a)
  {
    match a
    case Deliver(e) => Some(e)
    case Client(at, id, request) => Some(Submit(c.nodes[at], id, request))
    case _ => None
  }

  function NowOf(c: Cluster, h: History, a: Action, step: nat): Moment
    requires Enabled(c, a)
  {
    Moment(step, Terms(c), h.commits, Delivered(c, a), c.nodes[Actor(a)].role.Leader?)
  }

  /** The restart of a node that leads or follows is noted; a node without peers elects itself in a new term. */
  function Noted(c: Cluster, h: History, a: Action): History
    requires Enabled(c, a)
  {
    if a.Restart? && Engaged(c.nodes[a.at]) && c.nodes[a.at].peers != {} then
      h.(restarts := h.restarts + {(c.nodes[a.at].log.term, a.at)})
    else h
  }

  lemma TermsCovered(c: Cluster, h: History, ids: set<NodeID>, a: Action, step: nat)
    requires ClusterOk(c, h, ids) && Enabled(c, a)
    ensures TermsCover(h, ids, NowOf(c, h, a, step))
  {
    hide HistoryOk, MailOk, RoleOk, EntriesOk, AcksKept, CommitsKept, TermCurrent;
    forall t, p | (t, p) in h.ballots && p in ids ensures t <= Terms(c)[p] {
      assert NodeOk(h, ids, c.nodes[p]);
    }
  }

  lemma DurableNode(h: History, cluster: set<NodeID>, n: Node, commitIndex: Index, appliedIndex: Index)
    requires DurableOk(h, cluster, n) && commitIndex <= n.log.commitIndex && appliedIndex <= |n.applied|
    ensures DurableOk(h, cluster, Durable(n, commitIndex, appliedIndex))
  {
    hide EntriesOk, VoteMatches, AcksKept, TermCurrent;
    var entries := n.log.entries;
    CommittedPrefixOf(h, entries, n.log.commitIndex, n.log.term, commitIndex);
    CommittedShorter(h, n.applied, n.log.term, appliedIndex);
  }

  lemma CommittedPrefixOf(h: History, entries: seq<Entry>, k: nat, bound: Term, j: nat)
    requires j <= k <= |entries| && Committed(h, entries[..k], bound)
    ensures Committed(h, entries[..j], bound)
  {
    CommittedShorter(h, entries[..k], bound, j);
    assert entries[..k][..j] == entries[..j];
  }

  lemma RestartGood(c: Cluster, h: History, ids: set<NodeID>, a: Action, step: nat) returns (h': History)
    requires ClusterOk(c, h, ids) && Enabled(c, a) && a.Restart?
    ensures Good(ids, NowOf(c, h, a, step), Noted(c, h, a), h', a.at, Effect(c, a))
  {
    hide HistoryOk, DurableOk, MailOk, Good, Start, Grows, ActedOnly, ArrivalsNow, CandidateOk, LeaderOk, FollowerOk;
    var n := c.nodes[a.at];
    var h1 := Noted(c, h, a);
    var d := Durable(n, a.commitIndex, a.appliedIndex);
    DurableNode(h, ids, n, a.commitIndex, a.appliedIndex);
    NotedOk(h, h1, ids, a.at, NowOf(c, h, a, step));
    DurableNoted(h, h1, ids, d);
    h' := StartGood(ids, NowOf(c, h, a, step), h1, d);
  }

  lemma EffectGood(c: Cluster, h: History, ids: set<NodeID>, a: Action, step: nat) returns (h': History)
    requires ClusterOk(c, h, ids) && Enabled(c, a)
    ensures Good(ids, NowOf(c, h, a, step), Noted(c, h, a), h', Actor(a), Effect(c, a))
  {
    hide HistoryOk, NodeOk, Good, Step, Tick, Start, TermsCover;
    TermsCovered(c, h, ids, a, step);
    var n := c.nodes[Actor(a)];
    var now := NowOf(c, h, a, step);
    match a {
      case Deliver(e) => h' := StepGood(ids, now, h, n, e);
      case Client(_, id, request) => h' := StepGood(ids, now, h, n, Submit(n, id, request));
      case Timeout(_) => h' := TickGood(ids, now, h, n);
      case Restart(_, _, _) => h' := RestartGood(c, h, ids, a, step);
    }
  }

  lemma OthersOk(c: Cluster, h: History, h': History, ids: set<NodeID>, n: NodeID, now: Moment, p: NodeID)
    requires p in ids && p in c.nodes && p != n && c.nodes[p].id == p && NodeOk(h, ids, c.nodes[p])
    requires now.terms == Terms(c)
    requires Grows(h, h') && ActedOnly(h, h', n) && ArrivalsNow(h, h', n, now)
    ensures NodeOk(h', ids, c.nodes[p])
  {
    hide DurableOk, RoleOk, Grows, ActedOnly, ArrivalsNow;
    DurableGrows(h, h', ids, c.nodes[p], n, now);
    RoleGrows(h, h', ids, c.nodes[p], n);
  }

  /** The history grows from before a noted restart. */
  lemma GrowsNoted(c: Cluster, h: History, h': History, ids: set<NodeID>, a: Action, now: Moment)
    requires HistoryOk(h, ids) && Enabled(c, a)
    requires var h1 := Noted(c, h, a);
      Grows(h1, h') && ActedOnly(h1, h', Actor(a)) && ArrivalsNow(h1, h', Actor(a), now)
    requires ProposalsNow(Noted(c, h, a), h', Actor(a), now)
    ensures Grows(h, h') && ActedOnly(h, h', Actor(a)) && ArrivalsNow(h, h', Actor(a), now)
    ensures ProposalsNow(h, h', Actor(a), now)
  {
    hide HistoryOk, Grows, ActedOnly, ArrivalsNow;
    var n := Actor(a);
    var h1 := Noted(c, h, a);
    NotedOk(h, h1, ids, n, now);
    GrowsTransitive(h, h1, h');
    ActedTransitive(h, h1, h', n);
    ArrivalsNowTransitive(h, h1, h', n, now);
  }

  /** Every step keeps the invariant. */
  lemma NextOk(c: Cluster, h: History, ids: set<NodeID>, a: Action, c': Cluster, step: nat) returns (h': History)
    requires ClusterOk(c, h, ids) && Next(c, a, c')
    ensures ClusterOk(c', h', ids) && Grows(h, h')
    ensures ArrivalsNow(h, h', Actor(a), NowOf(c, h, a, step))
    ensures ProposalsNow(h, h', Actor(a), NowOf(c, h, a, step))
    ensures CommitsNow(h, h', c'.nodes[Actor(a)])
    ensures h'.restarts == Noted(c, h, a).restarts
  {
    hide HistoryOk, NodeOk, MailOk, Effect, ArrivalsNow, ProposedAt, Grows, ActedOnly;
    var now := NowOf(c, h, a, step);
    h' := EffectGood(c, h, ids, a, step);
    var n := Actor(a);
    GrowsNoted(c, h, h', ids, a, now);
    forall p | p in ids ensures c'.nodes[p].id == p && NodeOk(h', ids, c'.nodes[p]) {
      if p != n { OthersOk(c, h, h', ids, n, now, p); }
    }
    forall e | e in c'.net ensures MailOk(h', ids, e) {
      if e in c.net { MailGrows(h, h', ids, e); }
    }
  }

  // ---------------------------------------------------------------- initial states

  function Blank(p: NodeID, ids: set<NodeID>, maxAppend: nat): Node {
    Node(p, ids - {p}, maxAppend, EMPTY_LOG, [], Follower(None, {}))
  }

  lemma BlankOk(p: NodeID, ids: set<NodeID>, maxAppend: nat)
    requires p in ids && maxAppend >= 1
    ensures HistoryOk(NO_HISTORY, ids) && NodeOk(NO_HISTORY, ids, Blank(p, ids, maxAppend))
  {}

  /** The node leads the term. */
  predicate LedBy(nodes: map<NodeID, Node>, p: NodeID, t: Term) {
    p in nodes && nodes[p].role.Leader? && nodes[p].log.term == t
  }

  /** A history without reads or restarts, whose commits are those of current leaders. */
  ghost predicate Fresh(c: Cluster, h: History) {
    && (forall t :: t in h.reigns ==> h.reigns[t].arrivals == [])
    && (forall e :: e in h.commits ==> exists p :: LedBy(c.nodes, p, e.term))
    && h.restarts == {} && h.proposals == {}
  }

  lemma InitAlone(c: Cluster, maxAppend: nat, p: NodeID) returns (h: History)
    requires Init(c, maxAppend) && c.nodes.Keys == {p}
    ensures ClusterOk(c, h, {p}) && Fresh(c, h)
  {
    hide HistoryOk, NodeOk, MailOk, Grows, ActedOnly, Start;
    var now := Moment(0, map[], {}, None, false);
    BlankOk(p, {p}, maxAppend);
    var b := Blank(p, {p}, maxAppend);
    h := StartGood({p}, now, NO_HISTORY, b);
    assert Started(c, maxAppend, p);
    assert c.nodes.Keys - {p} == b.peers;
    forall t | t in h.reigns ensures h.reigns[t].arrivals == [] {
      assert h.reigns[t].arrivals != [] ==> ArrivedAt(h.reigns[t].arrivals[0], t, p, now);
    }
    forall e | e in h.commits ensures LedBy(c.nodes, p, e.term) {}
  }

  lemma StartMany(p: NodeID, ids: set<NodeID>, maxAppend: nat)
    requires p in ids && |ids| > 1
    ensures Start(p, ids - {p}, maxAppend, EMPTY_LOG, []).node == Blank(p, ids, maxAppend)
  {
    hide BecomeCandidate, BecomeLeader;
    assert ids == (ids - {p}) + {p};
    var n := Node(p, ids - {p}, maxAppend, EMPTY_LOG, [], Follower(None, {}));
    assert MaybeApply(n) == n;
  }

  lemma InitMany(c: Cluster, maxAppend: nat)
    requires Init(c, maxAppend) && |c.nodes.Keys| > 1
    ensures ClusterOk(c, NO_HISTORY, c.nodes.Keys)
  {
    hide HistoryOk, NodeOk, Start;
    var ids := c.nodes.Keys;
    forall q | q in ids
      ensures c.nodes[q] == Blank(q, ids, maxAppend) && HistoryOk(NO_HISTORY, ids)
      ensures NodeOk(NO_HISTORY, ids, c.nodes[q])
    {
      BlankOk(q, ids, maxAppend);
      StartMany(q, ids, maxAppend);
      assert Started(c, maxAppend, q);
    }
    var q :| q in ids;
    assert HistoryOk(NO_HISTORY, ids);
  }

  lemma InitOk(c: Cluster, maxAppend: nat) returns (h: History)
    requires Init(c, maxAppend)
    ensures ClusterOk(c, h, c.nodes.Keys) && Fresh(c, h)
  {
    hide ClusterOk, Start;
    var p :| p in c.nodes;
    if |c.nodes.Keys| > 1 {
      h := NO_HISTORY;
      InitMany(c, maxAppend);
    } else {
      assert c.nodes.Keys == {p} + (c.nodes.Keys - {p});
      assert c.nodes.Keys == {p};
      h := InitAlone(c, maxAppend, p);
    }
  }

  // ---------------------------------------------------------------- runs

  /** What the history remembers of a node's past state. */
  ghost predicate Remembered(h: History, n: Node) {
    && LogOk(h, n.log.entries)
    && n.log.commitIndex <= |n.log.entries|
    && Committed(h, n.log.entries[..n.log.commitIndex], n.log.term)
    && Committed(h, n.applied, n.log.term)
    && (n.role.Leader? ==>
          && n.log.term in h.reigns
          && h.reigns[n.log.term].leader == n.id
          && h.reigns[n.log.term].base <= n.log.entries)
  }

  lemma RememberedGrows(h: History, h': History, n: Node)
    requires Grows(h, h') && Remembered(h, n)
    ensures Remembered(h', n)
  {
    LogGrows(h, h', n.log.entries);
    CommittedGrows(h, h', n.log.entries[..n.log.commitIndex], n.log.term, n.log.term);
    CommittedGrows(h, h', n.applied, n.log.term, n.log.term);
    if n.role.Leader? { assert ReignGrows(h.reigns[n.log.term], h'.reigns[n.log.term]); }
  }

  lemma NodeRemembered(h: History, cluster: set<NodeID>, n: Node)
    requires ReignsOk(h, cluster) && NodeOk(h, cluster, n)
    ensures Remembered(h, n)
  {
    hide VoteMatches, AcksKept, TermCurrent, PeerOk, PendingOk, Elected, LogOk;
    if n.role.Leader? { assert ReignShape(h.reigns[n.log.term], n.log.term); }
  }

  /** A prefix covered by one of the given commits. */
  ghost predicate Covered(h: History, commits: set<CommitEvent>, s: seq<Entry>) {
    s == [] || exists c :: c in commits && CommitCovers(h, c, s, c.term)
  }

  /** At step `i`, a read request from `from` was delivered to the leader of term `t`. */
  predicate ReadArrives(run: Run, i: nat, t: Term, from: NodeID, id: RequestID, command: Command)
    requires run.Shaped() && i < |run.actions|
  {
    && Enabled(run.states[i], run.actions[i])
    && var to := Actor(run.actions[i]);
       && LedBy(run.states[i].nodes, to, t)
       && Delivered(run.states[i], run.actions[i])
         == Some(Envelope(from, t, to, ClientRequest(id, ReadRequest(command))))
  }

  /** At step `i`, a write request from `from` was delivered to the leader of term `t`. */
  predicate WriteArrives(run: Run, i: nat, t: Term, from: NodeID, id: RequestID, command: Command)
    requires run.Shaped() && i < |run.actions|
  {
    && Enabled(run.states[i], run.actions[i])
    && var to := Actor(run.actions[i]);
       && LedBy(run.states[i].nodes, to, t)
       && Delivered(run.states[i], run.actions[i])
         == Some(Envelope(from, t, to, ClientRequest(id, WriteRequest(command))))
  }

  ghost predicate ProposalKnown(run: Run, k: nat, p: Proposal)
    requires run.Shaped() && k < |run.states|
  {
    p.step < k && WriteArrives(run, p.step, p.term, p.from, p.id, p.command)
  }

  /** The state holds all that any node knew to be committed, at step `i` or before. */
  ghost predicate HoldsAllCommitted(run: Run, i: nat, state: seq<Entry>) {
    forall j: nat, p :: j <= i && run.At(j, p) ==> CommittedPrefix(run.Node(j, p)) <= state
  }

  /** Some node, at state `k` or before, knew all of `s` to be committed. */
  ghost predicate KnownCommitted(run: Run, k: nat, s: seq<Entry>) {
    exists j: nat, p :: j <= k && run.At(j, p) && s <= CommittedPrefix(run.Node(j, p))
  }

  ghost predicate ArrivalKnown(run: Run, k: nat, h: History, t: Term, a: Arrival)
    requires run.Shaped() && k < |run.states|
  {
    && a.step < k
    && ReadArrives(run, a.step, t, a.from, a.id, a.command)
    && forall i: nat, p :: i <= a.step && run.At(i, p) ==> Covered(h, a.commits, CommittedPrefix(run.Node(i, p)))
  }

  /** A history that explains the run up to state `k`. */
  ghost predicate Explains(run: Run, k: nat, h: History)
    requires run.Shaped() && k < |run.states|
  {
    && (forall i: nat :: i <= k ==> run.states[i].nodes.Keys == run.states[0].nodes.Keys)
    && ClusterOk(run.states[k], h, run.states[0].nodes.Keys)
    && (forall i: nat, p :: i <= k && run.At(i, p) ==> Remembered(h, run.Node(i, p)))
    && (forall t, i :: t in h.reigns && 0 <= i < |h.reigns[t].arrivals| ==>
          ArrivalKnown(run, k, h, t, h.reigns[t].arrivals[i]))
    && (forall c :: c in h.commits ==> CommitKnown(run, k, h, c))
    && (forall t, p :: (t, p) in h.restarts ==> RestartKnown(run, k, t, p))
    && (forall p :: p in h.proposals ==> ProposalKnown(run, k, p))
  }

  /** Some node has known what the leader committed to be committed. */
  ghost predicate CommitKnown(run: Run, k: nat, h: History, c: CommitEvent)
    requires run.Shaped() && k < |run.states|
  {
    && c.term in h.reigns
    && c.index <= |h.reigns[c.term].log|
    && exists j: nat, p :: j <= k && run.At(j, p) && h.reigns[c.term].log[..c.index] <= CommittedPrefix(run.Node(j, p))
  }

  /** At step `i`, node `p` restarted in term `t` while it led the term or knew its leader. */
  predicate RestartsIn(run: Run, i: nat, p: NodeID, t: Term)
    requires run.Shaped() && i < |run.actions|
  {
    && run.actions[i].Restart? && run.actions[i].at == p
    && run.At(i, p) && Engaged(run.Node(i, p)) && run.Node(i, p).log.term == t
    && run.At(i + 1, p) && run.Node(i + 1, p).log.term == t
  }

  ghost predicate RestartKnown(run: Run, k: nat, t: Term, p: NodeID)
    requires run.Shaped() && k < |run.states|
  {
    exists i: nat :: i < k && RestartsIn(run, i, p, t)
  }

  lemma CoveredGrows(h: History, h': History, commits: set<CommitEvent>, s: seq<Entry>)
    requires Grows(h, h') && Covered(h, commits, s)
    ensures Covered(h', commits, s)
  {
    if s != [] {
      var c :| c in commits && CommitCovers(h, c, s, c.term);
      assert ReignGrows(h.reigns[c.term], h'.reigns[c.term]);
      assert h.reigns[c.term].log[..c.index] == h'.reigns[c.term].log[..c.index];
      assert CommitCovers(h', c, s, c.term);
    }
  }

  lemma CommittedCovered(h: History, s: seq<Entry>, bound: Term, commits: set<CommitEvent>)
    requires Committed(h, s, bound) && h.commits <= commits
    ensures Covered(h, commits, s)
  {
    if s != [] {
      var c :| c in h.commits && CommitCovers(h, c, s, bound);
      assert CommitCovers(h, c, s, c.term);
    }
  }

  lemma ArrivalKnownGrows(run: Run, k: nat, h: History, h': History, t: Term, a: Arrival)
    requires run.Shaped() && k + 1 < |run.states| && Grows(h, h') && ArrivalKnown(run, k, h, t, a)
    ensures ArrivalKnown(run, k + 1, h', t, a)
  {
    forall i: nat, p | i <= a.step && run.At(i, p) ensures Covered(h', a.commits, CommittedPrefix(run.Node(i, p))) {
      CoveredGrows(h, h', a.commits, CommittedPrefix(run.Node(i, p)));
    }
  }

  /** An arrival recorded by the step from state `k`. */
  lemma ArrivalNew(run: Run, k: nat, h: History, h': History, t: Term, a: Arrival)
    requires run.Shaped() && k + 1 < |run.states| && Explains(run, k, h) && Grows(h, h')
    requires Enabled(run.states[k], run.actions[k])
    requires ArrivedAt(a, t, Actor(run.actions[k]), NowOf(run.states[k], h, run.actions[k], k))
    ensures ArrivalKnown(run, k + 1, h', t, a)
  {
    hide ClusterOk, Grows, Committed, LogOk, CommitKnown, RestartKnown;
    forall i: nat, p | i <= a.step && run.At(i, p) ensures Covered(h', a.commits, CommittedPrefix(run.Node(i, p))) {
      var n := run.Node(i, p);
      assert Remembered(h, n);
      assert CommittedPrefix(n) == n.log.entries[..n.log.commitIndex];
      CommittedCovered(h, CommittedPrefix(n), n.log.term, a.commits);
      CoveredGrows(h, h', a.commits, CommittedPrefix(n));
    }
  }

  lemma ExplainsStart(run: Run) returns (h: History)
    requires run.Valid()
    ensures Explains(run, 0, h)
  {
    hide HistoryOk, NodeOk, MailOk, Remembered, CommitKnown, Init;
    h := InitOk(run.states[0], run.maxAppend);
    ClusterRemembered(run.states[0], h, run.states[0].nodes.Keys);
    forall c | c in h.commits ensures CommitKnown(run, 0, h, c) {
      var p :| LedBy(run.states[0].nodes, p, c.term);
      LeaderCommit(run, 0, h, c, p);
    }
  }

  /** A leader knows to be committed whatever it has committed. */
  lemma LeaderCommit(run: Run, k: nat, h: History, c: CommitEvent, p: NodeID)
    requires run.Shaped() && k < |run.states| && ClusterOk(run.states[k], h, run.states[0].nodes.Keys)
    requires c in h.commits && LedBy(run.states[k].nodes, p, c.term)
    ensures CommitKnown(run, k, h, c)
  {
    hide MailOk, HistoryOk, NodeOk;
    var ids := run.states[0].nodes.Keys;
    CommitHeld(h, ids, c, run.Node(k, p));
    assert run.At(k, p) && h.reigns[c.term].log[..c.index] <= CommittedPrefix(run.Node(k, p));
  }

  lemma CommitHeld(h: History, ids: set<NodeID>, c: CommitEvent, n: Node)
    requires HistoryOk(h, ids) && NodeOk(h, ids, n) && c in h.commits && n.role.Leader? && n.log.term == c.term
    ensures c.term in h.reigns && c.index <= |h.reigns[c.term].log|
    ensures h.reigns[c.term].log[..c.index] <= CommittedPrefix(n)
  {
    hide ReignsOk, BallotsOk, AcksOk, ArrivalsOk, EntriesOk, VoteMatches, AcksKept, TermCurrent, PeerOk, PendingOk,
      Committed;
    assert CommitOk(h, ids, c);
  }

  lemma CommitKnownGrows(run: Run, k: nat, h: History, h': History, c: CommitEvent)
    requires run.Shaped() && k + 1 < |run.states| && Grows(h, h') && CommitKnown(run, k, h, c)
    ensures CommitKnown(run, k + 1, h', c)
  {
    hide CommittedPrefix;
    assert ReignGrows(h.reigns[c.term], h'.reigns[c.term]);
    assert h.reigns[c.term].log[..c.index] == h'.reigns[c.term].log[..c.index];
  }

  lemma ExplainsCommits(run: Run, k: nat, h: History, h': History)
    requires run.Shaped() && k + 1 < |run.states| && Explains(run, k, h) && Grows(h, h')
    requires ClusterOk(run.states[k + 1], h', run.states[0].nodes.Keys)
    requires Actor(run.actions[k]) in run.states[k + 1].nodes
    requires CommitsNow(h, h', run.states[k + 1].nodes[Actor(run.actions[k])])
    ensures forall c :: c in h'.commits ==> CommitKnown(run, k + 1, h', c)
  {
    hide ClusterOk, CommitKnown, RestartKnown, ArrivalKnown, Remembered, Grows;
    forall c | c in h'.commits ensures CommitKnown(run, k + 1, h', c) {
      if c in h.commits {
        CommitKnownGrows(run, k, h, h', c);
      } else {
        LeaderCommit(run, k + 1, h', c, Actor(run.actions[k]));
      }
    }
  }

  lemma ExplainsRestarts(run: Run, k: nat, h: History, h': History)
    requires run.Shaped() && k + 1 < |run.states| && Explains(run, k, h) && run.Moves(k)
    requires h'.restarts == Noted(run.states[k], h, run.actions[k]).restarts
    ensures forall t, p :: (t, p) in h'.restarts ==> RestartKnown(run, k + 1, t, p)
  {
    hide ClusterOk, CommitKnown, ArrivalKnown, Remembered, Step, Tick, Start;
    forall t, p | (t, p) in h'.restarts ensures RestartKnown(run, k + 1, t, p) {
      if (t, p) in h.restarts {
        assert RestartKnown(run, k, t, p);
      } else {
        var n := run.Node(k, p);
        StartTerm(Durable(n, run.actions[k].commitIndex, run.actions[k].appliedIndex));
        assert RestartsIn(run, k, p, t);
      }
    }
  }

  lemma ExplainsProposals(run: Run, k: nat, h: History, h': History)
    requires run.Shaped() && k + 1 < |run.states| && Explains(run, k, h)
    requires Enabled(run.states[k], run.actions[k])
    requires ProposalsNow(h, h', Actor(run.actions[k]), NowOf(run.states[k], h, run.actions[k], k))
    ensures forall p :: p in h'.proposals ==> ProposalKnown(run, k + 1, p)
  {
    hide ClusterOk, CommitKnown, RestartKnown, ArrivalKnown, Remembered;
    forall p | p in h'.proposals ensures ProposalKnown(run, k + 1, p) {
      if p in h.proposals { assert ProposalKnown(run, k, p); }
    }
  }

  lemma StartTerm(n: Node)
    requires n.role == Follower(None, {}) && n.peers != {}
    ensures Start(n.id, n.peers, n.maxAppend, n.log, n.applied).node.log.term == n.log.term
  {
    hide Start, BecomeCandidate, BecomeLeader;
    StartMeans(n);
  }

  lemma ClusterRemembered(c: Cluster, h: History, ids: set<NodeID>)
    requires ClusterOk(c, h, ids)
    ensures forall p :: p in ids ==> Remembered(h, c.nodes[p])
  {
    hide NodeOk, MailOk, Remembered;
    HistoryReigns(h, ids);
    forall p | p in ids ensures Remembered(h, c.nodes[p]) {
      NodeRemembered(h, ids, c.nodes[p]);
    }
  }

  lemma ExplainsNodes(run: Run, k: nat, h: History, h': History)
    requires run.Shaped() && k + 1 < |run.states| && Explains(run, k, h) && Grows(h, h')
    requires ClusterOk(run.states[k + 1], h', run.states[0].nodes.Keys)
    ensures forall i: nat, p :: i <= k + 1 && run.At(i, p) ==> Remembered(h', run.Node(i, p))
  {
    hide HistoryOk, NodeOk, MailOk, Grows, Remembered, ArrivalKnown, CommitKnown, RestartKnown;
    ClusterRemembered(run.states[k + 1], h', run.states[0].nodes.Keys);
    forall i: nat, p | i <= k + 1 && run.At(i, p) ensures Remembered(h', run.Node(i, p)) {
      if i <= k { RememberedGrows(h, h', run.Node(i, p)); }
    }
  }

  lemma ExplainsNext(run: Run, k: nat, h: History) returns (h': History)
    requires run.Shaped() && k + 1 < |run.states| && Explains(run, k, h) && run.Moves(k)
    ensures Explains(run, k + 1, h') && Grows(h, h')
  {
    hide HistoryOk, NodeOk, MailOk, Grows, Remembered, ArrivalKnown, CommitKnown, RestartKnown;
    hide NowOf, Noted, Effect, ArrivalsNow, ProposalsNow, ProposalKnown, CommitsNow, Enabled;
    var ids := run.states[0].nodes.Keys;
    h' := NextOk(run.states[k], h, ids, run.actions[k], run.states[k + 1], k);
    ExplainsNodes(run, k, h, h');
    ExplainsArrivals(run, k, h, h');
    ExplainsCommits(run, k, h, h');
    ExplainsRestarts(run, k, h, h');
    ExplainsProposals(run, k, h, h');
  }

  lemma HistoryReigns(h: History, ids: set<NodeID>)
    requires HistoryOk(h, ids)
    ensures ReignsOk(h, ids)
  {}

  lemma ExplainsArrivals(run: Run, k: nat, h: History, h': History)
    requires run.Shaped() && k + 1 < |run.states| && Explains(run, k, h) && Grows(h, h')
    requires Enabled(run.states[k], run.actions[k])
    requires ArrivalsNow(h, h', Actor(run.actions[k]), NowOf(run.states[k], h, run.actions[k], k))
    ensures forall t, i :: t in h'.reigns && 0 <= i < |h'.reigns[t].arrivals| ==>
      ArrivalKnown(run, k + 1, h', t, h'.reigns[t].arrivals[i])
  {
    hide ClusterOk, ArrivalKnown, CommitKnown, RestartKnown, Remembered, ArrivedAt, NowOf, Enabled;
    forall t, i | t in h'.reigns && 0 <= i < |h'.reigns[t].arrivals|
      ensures ArrivalKnown(run, k + 1, h', t, h'.reigns[t].arrivals[i])
    {
      var a := h'.reigns[t].arrivals[i];
      if t in h.reigns && i < |h.reigns[t].arrivals| {
        assert ReignGrows(h.reigns[t], h'.reigns[t]);
        assert a == h.reigns[t].arrivals[i];
        ArrivalKnownGrows(run, k, h, h', t, a);
      } else {
        ArrivalNew(run, k, h, h', t, a);
      }
    }
  }

  /** Every run has a history. */
  lemma Explain(run: Run, k: nat) returns (h: History)
    requires run.Valid() && k < |run.states|
    ensures Explains(run, k, h)
    decreases k
  {
    hide Explains, Init, Next;
    if k == 0 {
      h := ExplainsStart(run);
    } else {
      var h0 := Explain(run, k - 1);
      assert run.Moves(k - 1);
      h := ExplainsNext(run, k - 1, h0);
    }
  }

  // ---------------------------------------------------------------- theorems

  /** The history of a whole run, with what it remembers of two moments. */
  lemma Recall(run: Run, i: nat, a: NodeID, j: nat, b: NodeID) returns (h: History)
    requires run.Valid() && run.At(i, a) && run.At(j, b)
    ensures HistoryOk(h, run.states[0].nodes.Keys)
    ensures Remembered(h, run.Node(i, a)) && Remembered(h, run.Node(j, b))
    ensures run.Node(i, a).id == a && run.Node(j, b).id == b
  {
    hide Explains, HistoryOk, Remembered, Init, Next;
    h := Explain(run, |run.states| - 1);
    ExplainedPast(run, |run.states| - 1, h, i, a);
    ExplainedPast(run, |run.states| - 1, h, j, b);
    IdsFixed(run, i, a);
    IdsFixed(run, j, b);
  }

  lemma ExplainedPast(run: Run, k: nat, h: History, i: nat, a: NodeID)
    requires run.Shaped() && k < |run.states| && Explains(run, k, h) && i <= k && run.At(i, a)
    ensures HistoryOk(h, run.states[0].nodes.Keys) && Remembered(h, run.Node(i, a))
  {
    hide HistoryOk, NodeOk, MailOk, Remembered, ArrivalKnown, CommitKnown, RestartKnown;
  }

  lemma IdsFixed(run: Run, i: nat, a: NodeID)
    requires run.Valid() && run.At(i, a)
    ensures run.Node(i, a).id == a
  {
    hide Explains, NodeOk, MailOk, Init, Next;
    var h := Explain(run, i);
    ExplainedParts(run, i, h);
  }

  /**
   * Election safety, section 5.2 of the Raft paper: at most one node is ever
   * leader in a term, at whatever times, across restarts.
   */
  lemma ElectionSafety(run: Run, i: nat, a: NodeID, j: nat, b: NodeID)
    requires run.Valid() && run.At(i, a) && run.At(j, b)
    requires run.Node(i, a).role.Leader? && run.Node(j, b).role.Leader?
    requires run.Node(i, a).log.term == run.Node(j, b).log.term
    ensures a == b
  {
    hide HistoryOk, Committed, LogOk, Init, Next;
    var h := Recall(run, i, a, j, b);
  }

  /** Both logs hold an entry at the index, of the same term. */
  predicate SameIndexAndTerm(m: Node, n: Node, index: Index) {
    && 1 <= index <= |m.log.entries|
    && index <= |n.log.entries|
    && m.log.entries[index - 1].term == n.log.entries[index - 1].term
  }

  /**
   * Log matching, section 5.3 of the Raft paper: two logs, of any nodes at any
   * times, that hold the same index and term agree on all entries up to it.
   */
  lemma LogMatching(run: Run, i: nat, a: NodeID, j: nat, b: NodeID, index: Index)
    requires run.Valid() && run.At(i, a) && run.At(j, b)
    requires SameIndexAndTerm(run.Node(i, a), run.Node(j, b), index)
    ensures run.Node(i, a).log.entries[..index] == run.Node(j, b).log.entries[..index]
  {
    hide HistoryOk, LogOk, Committed, Init, Next;
    var h := Recall(run, i, a, j, b);
    MatchingLogs(h, run.Node(i, a).log.entries, run.Node(j, b).log.entries, index - 1);
  }

  /**
   * Leader completeness, section 5.4.3 of the Raft paper: what any node knows
   * to be committed in a term is in the log of every leader of a later term,
   * whichever of the two is observed first.
   */
  lemma LeadersAreComplete(run: Run, i: nat, a: NodeID, j: nat, b: NodeID)
    requires run.Valid() && run.At(i, a) && run.At(j, b)
    requires run.Node(j, b).role.Leader? && run.Node(i, a).log.term < run.Node(j, b).log.term
    ensures CommittedPrefix(run.Node(i, a)) <= run.Node(j, b).log.entries
  {
    hide HistoryOk, LogOk, Init, Next;
    var h := Recall(run, i, a, j, b);
    var n := run.Node(i, a);
    var s := n.log.entries[..n.log.commitIndex];
    assert CommittedPrefix(n) == s;
    if s != [] {
      var c :| c in h.commits && CommitCovers(h, c, s, n.log.term);
      LeaderCompleteness(h, run.states[0].nodes.Keys, c, run.Node(j, b).log.term);
    }
  }

  /**
   * State machine safety, section 5.4.3 of the Raft paper: no two nodes, at any
   * times, have applied or committed different entries at one index.
   */
  lemma StateMachineSafety(run: Run, i: nat, a: NodeID, j: nat, b: NodeID)
    requires run.Valid() && run.At(i, a) && run.At(j, b)
    ensures var x := run.Node(i, a).applied; var y := run.Node(j, b).applied; x <= y || y <= x
    ensures var x := CommittedPrefix(run.Node(i, a)); var y := CommittedPrefix(run.Node(j, b)); x <= y || y <= x
  {
    hide HistoryOk, Committed, LogOk, Init, Next;
    var h := Recall(run, i, a, j, b);
    var m, n := run.Node(i, a), run.Node(j, b);
    var ids := run.states[0].nodes.Keys;
    CommittedAgree(h, ids, m.applied, n.applied, m.log.term, n.log.term);
    CommittedAgree(h, ids, m.log.entries[..m.log.commitIndex], n.log.entries[..n.log.commitIndex], m.log.term,
      n.log.term);
  }

  /**
   * Linearizable reads: every answer to a read was computed on a state holding
   * everything that any node knew to be committed when (an occurrence of) the
   * request was delivered to the leader of the answer's term, or earlier; and
   * on no uncommitted entry: some node knew the whole state to be committed.
   */
  lemma LinearizableReads(run: Run, k: nat, e: Envelope)
    requires run.Valid() && k < |run.states| && e in run.states[k].net
    requires e.message.ClientResponse? && e.message.response.ReadAnswer?
    ensures exists i: nat ::
      && i < k
      && ReadArrives(run, i, e.term, e.to, e.message.id, e.message.response.command)
      && HoldsAllCommitted(run, i, e.message.response.state)
    ensures KnownCommitted(run, k, e.message.response.state)
    ensures forall p :: run.At(k, p) ==>
      var s := CommittedPrefix(run.Node(k, p)); s <= e.message.response.state || e.message.response.state <= s
  {
    hide Explains, NodeOk, Init, Next, KnownCommitted;
    var h := Explain(run, k);
    ExplainedParts(run, k, h);
    var r := e.message.response;
    assert MailOk(h, run.states[0].nodes.Keys, e);
    assert AnswerOk(h, e.term, e.to, e.message.id, r.command, r.state);
    AnswerCurrent(run, k, h, e);
    AnswerCommitted(run, k, h, e);
    AnswerKnown(run, k, h, r.state, e.term);
  }

  lemma AnswerKnown(run: Run, k: nat, h: History, s: seq<Entry>, t: Term)
    requires run.Shaped() && k < |run.states| && run.states[0].nodes.Keys != {} && Explains(run, k, h)
    requires Committed(h, s, t)
    ensures KnownCommitted(run, k, s)
  {
    hide ClusterOk, Remembered, ArrivalKnown, RestartKnown, CommittedPrefix;
    if s == [] {
      var p :| p in run.states[0].nodes;
      assert run.At(0, p) && s <= CommittedPrefix(run.Node(0, p));
    } else {
      var c :| c in h.commits && CommitCovers(h, c, s, t);
      assert CommitKnown(run, k, h, c);
      var j: nat, p :| j <= k && run.At(j, p) && h.reigns[c.term].log[..c.index] <= CommittedPrefix(run.Node(j, p));
      assert s <= CommittedPrefix(run.Node(j, p));
    }
  }

  lemma AnswerCurrent(run: Run, k: nat, h: History, e: Envelope)
    requires run.Shaped() && k < |run.states| && Explains(run, k, h)
    requires e.message.ClientResponse? && e.message.response.ReadAnswer?
    requires AnswerOk(h, e.term, e.to, e.message.id, e.message.response.command, e.message.response.state)
    ensures exists i: nat ::
      && i < k
      && ReadArrives(run, i, e.term, e.to, e.message.id, e.message.response.command)
      && HoldsAllCommitted(run, i, e.message.response.state)
  {
    hide ClusterOk, Remembered, Committed, CommittedPrefix, ReadArrives, CommitKnown, RestartKnown;
    var r := e.message.response;
    var x :| 0 <= x < |h.reigns[e.term].arrivals| &&
      AnswersArrival(h, h.reigns[e.term].arrivals[x], e.to, e.message.id, r.command, r.state);
    var a := h.reigns[e.term].arrivals[x];
    assert ArrivalKnown(run, k, h, e.term, a);
    forall j: nat, p | j <= a.step && run.At(j, p) ensures CommittedPrefix(run.Node(j, p)) <= r.state {
      var s := CommittedPrefix(run.Node(j, p));
      assert Covered(h, a.commits, s);
      CoveredHeld(h, a, s, r.state);
    }
    assert a.step < k && ReadArrives(run, a.step, e.term, e.to, e.message.id, r.command);
  }

  lemma CoveredHeld(h: History, a: Arrival, s: seq<Entry>, state: seq<Entry>)
    requires Covered(h, a.commits, s)
    requires forall c :: c in a.commits ==> StateHolds(h, c, state)
    ensures s <= state
  {
    if s != [] {
      var c :| c in a.commits && CommitCovers(h, c, s, c.term);
      assert StateHolds(h, c, state);
    }
  }

  lemma AnswerCommitted(run: Run, k: nat, h: History, e: Envelope)
    requires run.Shaped() && k < |run.states| && Explains(run, k, h)
    requires e.message.ClientResponse? && e.message.response.ReadAnswer?
    requires AnswerOk(h, e.term, e.to, e.message.id, e.message.response.command, e.message.response.state)
    ensures forall p :: run.At(k, p) ==>
      var s := CommittedPrefix(run.Node(k, p)); s <= e.message.response.state || e.message.response.state <= s
  {
    hide HistoryOk, NodeOk, MailOk, Committed, ArrivalKnown, CommitKnown, RestartKnown, LogOk;
    forall p | run.At(k, p)
      ensures var s := CommittedPrefix(run.Node(k, p)); s <= e.message.response.state || e.message.response.state <= s
    {
      var n := run.Node(k, p);
      assert Remembered(h, n);
      assert CommittedPrefix(n) == n.log.entries[..n.log.commitIndex];
      CommittedAgree(h, run.states[0].nodes.Keys, CommittedPrefix(n), e.message.response.state, n.log.term, e.term);
    }
  }

  /**
   * Every answer to a write follows a delivery of the write to the leader of the answer's term, and was given on a
   * state that ends with the entry the leader then appended, holding the command; some node knew the whole state to
   * be committed.
   */
  lemma WritesAreCommitted(run: Run, k: nat, e: Envelope)
    requires run.Valid() && k < |run.states| && e in run.states[k].net
    requires e.message.ClientResponse? && e.message.response.WriteAnswer?
    ensures var state := e.message.response.state;
      && state != []
      && KnownCommitted(run, k, state)
      && exists i: nat, c: Command ::
           && i < k
           && WriteArrives(run, i, e.term, e.to, e.message.id, c)
           && state[|state| - 1] == Entry(|state|, e.term, Some(c))
  {
    hide Explains, NodeOk, Init, Next, KnownCommitted;
    var h := Explain(run, k);
    ExplainedParts(run, k, h);
    assert MailOk(h, run.states[0].nodes.Keys, e);
    WriteKnown(run, k, h, e);
    AnswerKnown(run, k, h, e.message.response.state, e.term);
  }

  lemma WriteKnown(run: Run, k: nat, h: History, e: Envelope)
    requires run.Shaped() && k < |run.states| && Explains(run, k, h)
    requires e.message.ClientResponse? && e.message.response.WriteAnswer?
    requires WrittenOk(h, e.term, e.to, e.message.id, e.message.response.state)
    ensures var state := e.message.response.state;
      && state != []
      && exists i: nat, c: Command ::
           && i < k
           && WriteArrives(run, i, e.term, e.to, e.message.id, c)
           && state[|state| - 1] == Entry(|state|, e.term, Some(c))
  {
    hide ClusterOk, CommitKnown, RestartKnown, ArrivalKnown, Remembered, Committed, WriteArrives;
    var state := e.message.response.state;
    var c: Command :| WroteAt(h, e.term, |state|, e.to, e.message.id, c)
                      && state[|state| - 1] == Entry(|state|, e.term, Some(c));
    var step: nat :| Proposal(step, e.term, |state|, e.to, e.message.id, c) in h.proposals;
    assert ProposalKnown(run, k, Proposal(step, e.term, |state|, e.to, e.message.id, c));
    assert step < k && WriteArrives(run, step, e.term, e.to, e.message.id, c);
  }

  /**
   * An assertion of log.rs or node.rs fails only at a node that, in the term it
   * halts in, restarted after leading that term or following its leader. Only
   * three of the assertions can fail then: those that a restarted node meets
   * on messages meant for its past self.
   */
  lemma HaltsOnlyAfterRestart(run: Run, k: nat, p: NodeID)
    requires run.Valid() && run.At(k, p) && run.Node(k, p).role.Halted?
    ensures ReachablePanic(run.Node(k, p).role.panic)
    ensures exists i: nat :: i < k && RestartsIn(run, i, p, run.Node(k, p).log.term)
  {
    hide Explains, NodeOk, MailOk, Init, Next;
    var h := Explain(run, k);
    ExplainedParts(run, k, h);
    PanicKnown(h, run.states[0].nodes.Keys, run.Node(k, p));
    ExplainedRestart(run, k, h, run.Node(k, p).log.term, p);
  }

  lemma PanicKnown(h: History, ids: set<NodeID>, n: Node)
    requires NodeOk(h, ids, n) && n.role.Halted?
    ensures ReachablePanic(n.role.panic) && (n.log.term, n.id) in h.restarts
  {}

  lemma ExplainedRestart(run: Run, k: nat, h: History, t: Term, p: NodeID)
    requires run.Shaped() && k < |run.states| && Explains(run, k, h) && (t, p) in h.restarts
    ensures exists i: nat :: i < k && RestartsIn(run, i, p, t)
  {
    hide ClusterOk, Remembered, ArrivalKnown, CommitKnown, RestartsIn;
    assert RestartKnown(run, k, t, p);
  }

  /** Without restarts, no assertion of log.rs or node.rs ever fails: no message, timer or client halts a node. */
  lemma NeverHaltsWithoutRestart(run: Run, k: nat, p: NodeID)
    requires run.Valid() && run.At(k, p)
    requires forall i :: 0 <= i < k && i < |run.actions| ==> !run.actions[i].Restart?
    ensures !run.Node(k, p).role.Halted?
  {
    if run.Node(k, p).role.Halted? {
      HaltsOnlyAfterRestart(run, k, p);
    }
  }

  /** One vote per term, across restarts: two granted votes of one voter in one term name the same candidate. */
  lemma OneVotePerTerm(run: Run, k: nat, d: Envelope, e: Envelope)
    requires run.Valid() && k < |run.states| && d in run.states[k].net && e in run.states[k].net
    requires d.message == CampaignResponse(true) && e.message == CampaignResponse(true)
    requires d.from == e.from && d.term == e.term
    ensures d.to == e.to
  {
    hide Explains, NodeOk, Init, Next;
    var h := Explain(run, k);
    ExplainedParts(run, k, h);
    assert MailOk(h, run.states[0].nodes.Keys, d) && MailOk(h, run.states[0].nodes.Keys, e);
  }

  /** The current nodes and messages of an explained run. */
  lemma ExplainedParts(run: Run, k: nat, h: History)
    requires run.Shaped() && k < |run.states| && Explains(run, k, h)
    ensures forall p :: p in run.states[k].nodes ==>
      NodeOk(h, run.states[0].nodes.Keys, run.states[k].nodes[p]) && run.states[k].nodes[p].id == p
    ensures forall e :: e in run.states[k].net ==> MailOk(h, run.states[0].nodes.Keys, e)
  {
    hide NodeOk, MailOk, HistoryOk;
  }

  /**
   * Replication progress: in every state of every leader, and for every peer,
   * matchIndex < nextIndex <= lastIndex + 1; and a peer still in the leader's
   * term does hold the leader's log up to its matchIndex.
   */
  lemma ProgressInvariant(run: Run, k: nat, a: NodeID, p: NodeID)
    requires run.Valid() && run.At(k, a) && run.At(k, p) && a != p && run.Node(k, a).role.Leader?
    ensures p in run.Node(k, a).role.progress
    ensures var n := run.Node(k, a); var pr := n.role.progress[p];
      && pr.matchIndex < pr.nextIndex <= |n.log.entries| + 1
      && (run.Node(k, p).log.term == n.log.term ==>
            pr.matchIndex <= |run.Node(k, p).log.entries|
            && run.Node(k, p).log.entries[..pr.matchIndex] == n.log.entries[..pr.matchIndex])
  {
    hide Explains, NodeOk, MailOk, Init, Next;
    var h := Explain(run, k);
    ExplainedParts(run, k, h);
    var n, q := run.Node(k, a), run.Node(k, p);
    assert NodeOk(h, run.states[0].nodes.Keys, n) && NodeOk(h, run.states[0].nodes.Keys, q);
    PeerHolds(h, run.states[0].nodes.Keys, n, q);
  }

  lemma PeerHolds(h: History, ids: set<NodeID>, n: Node, q: Node)
    requires NodeOk(h, ids, n) && NodeOk(h, ids, q) && n.id != q.id && n.role.Leader?
    ensures q.id in n.role.progress
    ensures var pr := n.role.progress[q.id];
      && pr.matchIndex < pr.nextIndex <= |n.log.entries| + 1
      && (q.log.term == n.log.term ==>
            pr.matchIndex <= |q.log.entries| && q.log.entries[..pr.matchIndex] == n.log.entries[..pr.matchIndex])
  {
    hide PendingOk, CommitsKept, TermCurrent, VoteMatches, EntriesOk, Confirmed;
    var pr := n.role.progress[q.id];
    assert PeerOk(h, n.log.term, q.id, pr);
    if q.log.term == n.log.term && pr.matchIndex > 0 {
      var bound := q.log.term + 1;
      assert Retained(h, q.log.entries, n.log.term, pr.matchIndex, bound);
    }
  }

  /** No append that a follower would answer with match index 0 and reject index 0 is ever sent. */
  lemma NoEmptyAppendAtStart(run: Run, k: nat, e: Envelope)
    requires run.Valid() && k < |run.states| && e in run.states[k].net
    requires e.message.Append? && e.message.baseIndex == 0
    ensures e.message.entries != []
  {
    hide Explains, NodeOk, Init, Next;
    var h := Explain(run, k);
    ExplainedParts(run, k, h);
    assert MailOk(h, run.states[0].nodes.Keys, e);
  }
}
