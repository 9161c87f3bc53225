/** Runs of a cluster, extended one step at a time. */
module RaftRuns {
  import opened RaftLog
  import opened RaftNode
  import opened RaftHistory
  import opened RaftInvariant
  import opened RaftCluster

  function Last(run: Run): Cluster
    requires run.states != []
  {
    run.states[|run.states| - 1]
  }

  /** The run goes on with one more action. */
  lemma Then(run: Run, action: Action, o: Out) returns (run': Run)
    requires run.Valid() && Enabled(Last(run), action) && o == Effect(Last(run), action)
    ensures run'.Valid() && |run'.states| == |run.states| + 1 && run.states <= run'.states
    ensures run'.actions == run.actions + [action]
    ensures Last(run') == Cluster(Last(run).nodes[Actor(action) := o.node], Last(run).net + o.sent)
  {
    hide Effect, Enabled, Init;
    var c := Cluster(Last(run).nodes[Actor(action) := o.node], Last(run).net + o.sent);
    run' := Run(run.maxAppend, run.states + [c], run.actions + [action]);
    forall i | 0 <= i < |run'.actions| ensures run'.Moves(i) {
      if i < |run.actions| { assert run.Moves(i); }
    }
  }

  /** The invariant at the end of a run: of its nodes, which know each other, and of its messages. */
  ghost predicate Holds(run: Run, h: History, ids: set<NodeID>)
    requires run.states != []
  {
    && ids == Last(run).nodes.Keys
    && HistoryOk(h, ids)
    && (forall p :: p in ids ==> Holding(run, h, ids, p))
    && (forall e :: e in Last(run).net ==> MailOk(h, ids, e))
  }

  ghost predicate Holding(run: Run, h: History, ids: set<NodeID>, p: NodeID)
    requires run.states != []
  {
    && p in Last(run).nodes
    && NodeOk(h, ids, Last(run).nodes[p])
    && Last(run).nodes[p].id == p && Last(run).nodes[p].peers == ids - {p} && Last(run).nodes[p].maxAppend >= 1
  }

  lemma Held(run: Run) returns (h: History, ids: set<NodeID>)
    requires run.Valid()
    ensures Holds(run, h, ids)
  {
    hide Init, Next, NodeOk, MailOk, HistoryOk, Remembered, ArrivalKnown, CommitKnown, RestartKnown, ProposalKnown;
    var k := |run.states| - 1;
    h := Explain(run, k);
    ids := run.states[0].nodes.Keys;
    ExplainedParts(run, k, h);
    forall p | p in ids ensures Holding(run, h, ids, p) { NodeNamed(h, ids, Last(run).nodes[p]); }
  }

  lemma NodeNamed(h: History, ids: set<NodeID>, n: Node)
    requires NodeOk(h, ids, n)
    ensures n.peers == ids - {n.id} && n.id in ids && n.maxAppend >= 1
  {}

  lemma HeldNode(run: Run, h: History, ids: set<NodeID>, p: NodeID)
    requires run.states != [] && Holds(run, h, ids) && p in Last(run).nodes
    ensures Holding(run, h, ids, p)
  {
    hide Holding;
  }

  /** A node takes a message from the network. */
  lemma Takes(run: Run, e: Envelope) returns (run': Run)
    requires run.Valid() && e in Last(run).net && e.to in Last(run).nodes && e.from != e.to
    ensures run'.Valid() && run.states <= run'.states && run'.actions == run.actions + [Deliver(e)]
    ensures var o := Step(Last(run).nodes[e.to], e);
      Last(run') == Cluster(Last(run).nodes[e.to := o.node], Last(run).net + o.sent)
  {
    hide Init, Next, Step;
    run' := Then(run, Deliver(e), Step(Last(run).nodes[e.to], e));
  }
}
