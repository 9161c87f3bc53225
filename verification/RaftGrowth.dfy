/** How a history grows: each event keeps the history invariants. */
module RaftGrowth {
  import opened RaftLog
  import opened RaftHistory

  ghost predicate ReignGrows(r: Reign, r': Reign) {
    && r'.leader == r.leader && r'.base == r.base && r'.quorum == r.quorum
    && r.log <= r'.log && r.arrivals <= r'.arrivals
  }

  /** Nothing recorded is ever lost or changed. */
  ghost predicate Grows(h: History, h': History) {
    && (forall t :: t in h.reigns ==> t in h'.reigns && ReignGrows(h.reigns[t], h'.reigns[t]))
    && (forall k :: k in h.ballots ==> k in h'.ballots && h'.ballots[k] == h.ballots[k])
    && (forall k :: k in h.acks ==> k in h'.acks && h.acks[k] <= h'.acks[k])
    && h.commits <= h'.commits
    && h.restarts <= h'.restarts
    && h.proposals <= h'.proposals
  }

  /** Only node `n` acted: all that is new was done by it. */
  ghost predicate ActedOnly(h: History, h': History, n: NodeID) {
    && (forall t, p :: (t, p) in h'.ballots && p != n ==> (t, p) in h.ballots)
    && (forall t, p :: (t, p) in h'.acks && p != n ==> (t, p) in h.acks && h'.acks[(t, p)] == h.acks[(t, p)])
    && (forall t :: t in h'.reigns && h'.reigns[t].leader != n ==> t in h.reigns && h'.reigns[t] == h.reigns[t])
    && (forall c :: c in h'.commits && c !in h.commits ==> c.term in h'.reigns && h'.reigns[c.term].leader == n)
  }

  lemma GrowsReflexive(h: History)
    ensures Grows(h, h)
  {}

  lemma GrowsTransitive(a: History, b: History, c: History)
    requires Grows(a, b) && Grows(b, c)
    ensures Grows(a, c)
  {
    forall t | t in a.reigns ensures t in c.reigns && ReignGrows(a.reigns[t], c.reigns[t]) {
      assert t in b.reigns;
    }
  }

  lemma EntryGrows(h: History, h': History, l: seq<Entry>, i: nat)
    requires Grows(h, h') && i < |l| && EntryOk(h, l, i)
    ensures EntryOk(h', l, i)
  {
    var t := l[i].term;
    assert ReignGrows(h.reigns[t], h'.reigns[t]);
    assert h'.reigns[t].log[..i + 1] == h.reigns[t].log[..i + 1];
  }

  lemma LogGrows(h: History, h': History, l: seq<Entry>)
    requires Grows(h, h') && LogOk(h, l)
    ensures LogOk(h', l)
  {
    forall i | 0 <= i < |l| ensures EntryOk(h', l, i) {
      assert EntryOk(h, l, i);
      EntryGrows(h, h', l, i);
    }
  }

  lemma RetainedGrows(h: History, h': History, l: seq<Entry>, t: Term, k: Index, bound: Term)
    requires Grows(h, h') && Retained(h, l, t, k, bound)
    ensures Retained(h', l, t, k, bound)
  {
    assert ReignGrows(h.reigns[t], h'.reigns[t]);
    var x := h.reigns[t].log[..k];
    assert x == h'.reigns[t].log[..k];
    if !(x <= l) {
      var u :| t < u < bound && u in h.reigns && !(x <= h.reigns[u].base);
      assert ReignGrows(h.reigns[u], h'.reigns[u]);
      assert u in h'.reigns && !(x <= h'.reigns[u].base);
    }
  }

  /** Acknowledgements that did not change stay retained. */
  lemma AcksRetainedGrow(h: History, h': History, l: seq<Entry>, p: NodeID, before: Term, bound: Term)
    requires Grows(h, h') && AcksRetained(h, l, p, before, bound)
    requires forall t :: t < before && (t, p) in h'.acks ==> (t, p) in h.acks && h'.acks[(t, p)] == h.acks[(t, p)]
    ensures AcksRetained(h', l, p, before, bound)
  {
    forall t, k | t < before && (t, p) in h'.acks && k <= h'.acks[(t, p)] ensures Retained(h', l, t, k, bound) {
      assert Retained(h, l, t, k, bound);
      RetainedGrows(h, h', l, t, k, bound);
    }
  }

  lemma CommittedGrows(h: History, h': History, s: seq<Entry>, bound: Term, bound': Term)
    requires Grows(h, h') && Committed(h, s, bound) && bound <= bound'
    ensures Committed(h', s, bound')
  {
    if s != [] {
      var c :| c in h.commits && CommitCovers(h, c, s, bound);
      assert ReignGrows(h.reigns[c.term], h'.reigns[c.term]);
      assert h.reigns[c.term].log[..c.index] == h'.reigns[c.term].log[..c.index];
      assert CommitCovers(h', c, s, bound');
    }
  }

  /** A prefix of a committed prefix is committed. */
  lemma CommittedShorter(h: History, s: seq<Entry>, bound: Term, k: nat)
    requires Committed(h, s, bound) && k <= |s|
    ensures Committed(h, s[..k], bound)
  {
    if k > 0 {
      var c :| c in h.commits && CommitCovers(h, c, s, bound);
      assert CommitCovers(h, c, s[..k], bound);
    }
  }

  // ---------------------------------------------------------------- parts of the invariant under growth

  lemma ReignsGrow(h: History, h': History, cluster: set<NodeID>, t: Term)
    requires Grows(h, h') && ReignsOk(h, cluster)
    requires t in h.reigns && h'.reigns[t].log == h.reigns[t].log
    ensures t in h'.reigns && ReignShape(h'.reigns[t], t) && LogOk(h', h'.reigns[t].log) && Elected(h', cluster, t)
  {
    assert ReignGrows(h.reigns[t], h'.reigns[t]);
    assert Elected(h, cluster, t);
    LogGrows(h, h', h.reigns[t].log);
  }

  lemma CommitGrows(h: History, h': History, cluster: set<NodeID>, c: CommitEvent)
    requires Grows(h, h') && CommitOk(h, cluster, c)
    ensures CommitOk(h', cluster, c)
  {
    assert ReignGrows(h.reigns[c.term], h'.reigns[c.term]);
  }

  lemma CommitsGrow(h: History, h': History, cluster: set<NodeID>)
    requires Grows(h, h') && CommitsOk(h, cluster) && h'.commits == h.commits
    ensures CommitsOk(h', cluster)
  {
    forall c | c in h'.commits ensures CommitOk(h', cluster, c) {
      assert CommitOk(h, cluster, c);
      CommitGrows(h, h', cluster, c);
    }
  }

  lemma ArrivalGrows(h: History, h': History, cluster: set<NodeID>, t: Term, a: Arrival)
    requires Grows(h, h') && CommitsOk(h, cluster) && ArrivalOk(h, cluster, t, a)
    ensures ArrivalOk(h', cluster, t, a)
  {
    assert ReignGrows(h.reigns[t], h'.reigns[t]);
    forall c, p | c in a.commits && c.term in h'.reigns && p in h'.reigns[c.term].quorum
      ensures p in cluster && a.terms[p] >= c.term
    {
      assert CommitOk(h, cluster, c);
      assert ReignGrows(h.reigns[c.term], h'.reigns[c.term]);
    }
  }

  lemma ArrivalsGrow(h: History, h': History, cluster: set<NodeID>)
    requires Grows(h, h') && CommitsOk(h, cluster) && ArrivalsOk(h, cluster)
    requires forall t :: t in h'.reigns ==>
      if t in h.reigns then h'.reigns[t].arrivals == h.reigns[t].arrivals else h'.reigns[t].arrivals == []
    ensures ArrivalsOk(h', cluster)
  {
    forall t, i | t in h'.reigns && 0 <= i < |h'.reigns[t].arrivals|
      ensures ArrivalOk(h', cluster, t, h'.reigns[t].arrivals[i])
    {
      assert ArrivalOk(h, cluster, t, h.reigns[t].arrivals[i]);
      ArrivalGrows(h, h', cluster, t, h.reigns[t].arrivals[i]);
    }
  }

  /** A ballot stays fine if its voter's earlier acknowledgements did not change. */
  lemma BallotGrows(h: History, h': History, t: Term, p: NodeID)
    requires Grows(h, h') && BallotsOk(h) && (t, p) in h.ballots
    requires Counted(h', t, p) ==> Counted(h, t, p)
    requires forall u :: u < t && (u, p) in h'.acks ==> (u, p) in h.acks && h'.acks[(u, p)] == h.acks[(u, p)]
    ensures (t, p) in h'.ballots && BallotOk(h', t, p)
  {
    assert BallotOk(h, t, p);
    var b := h.ballots[(t, p)];
    LogGrows(h, h', b.log);
    if Counted(h', t, p) {
      AcksRetainedGrow(h, h', b.log, p, t, t);
    }
  }

  lemma BallotsGrow(h: History, h': History)
    requires Grows(h, h') && BallotsOk(h) && h'.ballots == h.ballots
    requires forall t, p :: (t, p) in h.ballots && Counted(h', t, p) ==> Counted(h, t, p)
    requires forall t, u, p :: (t, p) in h.ballots && u < t && (u, p) in h'.acks ==>
      (u, p) in h.acks && h'.acks[(u, p)] == h.acks[(u, p)]
    ensures BallotsOk(h')
  {
    forall t, p | (t, p) in h'.ballots ensures BallotOk(h', t, p) {
      BallotGrows(h, h', t, p);
    }
  }

  // ---------------------------------------------------------------- events

  /** Node `p` votes for `c` in term `t`, with its log as it is now. */
  function Vote(h: History, t: Term, p: NodeID, c: NodeID, log: seq<Entry>): History {
    if (t, p) in h.ballots then h else h.(ballots := h.ballots[(t, p) := Ballot(c, log)])
  }

  lemma VoteOk(h: History, cluster: set<NodeID>, t: Term, p: NodeID, c: NodeID, log: seq<Entry>)
    requires HistoryOk(h, cluster) && LogOk(h, log)
    requires (t, p) !in h.ballots && p !in (if t in h.reigns then h.reigns[t].quorum else {})
    requires t !in h.reigns ==> AcksRetained(h, log, p, t, t)
    requires c == p || ((t, c) in h.ballots && h.ballots[(t, c)].candidate == c
                        && !Newer(log, |h.ballots[(t, c)].log|, LastTerm(h.ballots[(t, c)].log)))
    ensures var h' := Vote(h, t, p, c, log); HistoryOk(h', cluster) && Grows(h, h') && ActedOnly(h, h', p)
  {
    hide ReignShape, Elected, LogOk, AcksRetained, CommitsOk, ArrivalsOk;
    var h' := Vote(h, t, p, c, log);
    assert Grows(h, h');
    hide Grows;
    forall u | u in h'.reigns
      ensures ReignShape(h'.reigns[u], u) && LogOk(h', h'.reigns[u].log) && Elected(h', cluster, u)
    {
      ReignsGrow(h, h', cluster, u);
    }
    forall u, q | (u, q) in h'.ballots ensures BallotOk(h', u, q) {
      if (u, q) == (t, p) {
        LogGrows(h, h', log);
        if t !in h.reigns { AcksRetainedGrow(h, h', log, p, t, t); }
      } else {
        BallotGrows(h, h', u, q);
      }
    }
    CommitsGrow(h, h', cluster);
    ArrivalsGrow(h, h', cluster);
  }

  /** Everything but the reigns, when only acknowledgements of `n` in its latest term change. */
  lemma OthersGrow(h: History, h': History, cluster: set<NodeID>, t: Term, n: NodeID)
    requires HistoryOk(h, cluster) && Grows(h, h') && AcksOk(h')
    requires h'.ballots == h.ballots && h'.commits == h.commits
    requires forall u :: (u, n) in h.ballots ==> u <= t
    requires forall u, p :: (u, p) in h'.acks && (u, p) != (t, n) ==>
      (u, p) in h.acks && h'.acks[(u, p)] == h.acks[(u, p)]
    requires forall u :: u in h'.reigns ==>
      if u in h.reigns then h'.reigns[u].arrivals == h.reigns[u].arrivals else h'.reigns[u].arrivals == []
    requires ReignsOk(h', cluster)
    ensures HistoryOk(h', cluster)
  {
    forall u, p | (u, p) in h.ballots && Counted(h', u, p) ensures Counted(h, u, p) {
      if u in h.reigns { assert ReignGrows(h.reigns[u], h'.reigns[u]); }
    }
    BallotsGrow(h, h');
    CommitsGrow(h, h', cluster);
    ArrivalsGrow(h, h', cluster);
  }

  /** `n` wins term `t`, and appends the noop that starts its reign. */
  function Elect(h: History, t: Term, n: NodeID, base: seq<Entry>, noop: Entry, quorum: set<NodeID>): History {
    h.(reigns := h.reigns[t := Reign(n, base, base + [noop], quorum, [])],
       acks := h.acks[(t, n) := |base| + 1])
  }

  ghost predicate Winning(h: History, t: Term, n: NodeID, base: seq<Entry>, p: NodeID) {
    && (t, p) in h.ballots
    && h.ballots[(t, p)].candidate == n
    && !Newer(h.ballots[(t, p)].log, |base|, LastTerm(base))
  }

  lemma ElectGrows(h: History, t: Term, n: NodeID, base: seq<Entry>, noop: Entry, quorum: set<NodeID>)
    requires AcksOk(h) && t !in h.reigns
    ensures var h' := Elect(h, t, n, base, noop, quorum); Grows(h, h') && ActedOnly(h, h', n) && AcksOk(h')
  {
    assert forall p :: (t, p) !in h.acks;
  }

  lemma ElectLog(h: History, h': History, t: Term, base: seq<Entry>, log: seq<Entry>)
    requires Grows(h, h') && LogOk(h, base) && base <= log && |log| == |base| + 1
    requires log[|base|].index == |log| && log[|base|].term == t
    requires t in h'.reigns && h'.reigns[t].log == log
    ensures LogOk(h', log)
  {
    LogGrows(h, h', base);
    forall i | 0 <= i < |log| ensures EntryOk(h', log, i) {
      if i < |base| {
        assert EntryOk(h', base, i);
        assert log[..i + 1] == base[..i + 1];
      }
    }
  }

  /** The new reign. */
  lemma ElectReign(h: History, h': History, cluster: set<NodeID>, t: Term, n: NodeID, base: seq<Entry>, noop: Entry,
                   quorum: set<NodeID>)
    requires t > 0 && n in cluster && LogOk(h, base) && (forall i :: 0 <= i < |base| ==> base[i].term < t)
    requires noop.index == |base| + 1 && noop.term == t && Quorum(cluster, quorum)
    requires forall p :: p in quorum ==> Winning(h, t, n, base, p)
    requires Grows(h, h') && h' == Elect(h, t, n, base, noop, quorum)
    ensures ReignShape(h'.reigns[t], t) && LogOk(h', h'.reigns[t].log) && Elected(h', cluster, t)
  {
    hide Grows, LogOk, Quorum;
    ElectLog(h, h', t, base, base + [noop]);
    assert forall p :: p in quorum ==> Winning(h, t, n, base, p);
  }

  lemma ElectOk(h: History, cluster: set<NodeID>, t: Term, n: NodeID, base: seq<Entry>, noop: Entry,
    quorum: set<NodeID>)
    requires HistoryOk(h, cluster) && t !in h.reigns && t > 0 && n in cluster
    requires LogOk(h, base) && (forall i :: 0 <= i < |base| ==> base[i].term < t)
    requires noop.index == |base| + 1 && noop.term == t
    requires Quorum(cluster, quorum)
    requires forall p :: p in quorum ==> Winning(h, t, n, base, p)
    requires forall u :: (u, n) in h.ballots ==> u <= t
    ensures var h' := Elect(h, t, n, base, noop, quorum);
      HistoryOk(h', cluster) && Grows(h, h') && ActedOnly(h, h', n)
  {
    hide BallotsOk, AcksOk, CommitsOk, ArrivalsOk, Grows, ActedOnly, ReignShape, LogOk, Elected, Winning, Quorum;
    var h' := Elect(h, t, n, base, noop, quorum);
    ElectGrows(h, t, n, base, noop, quorum);
    ElectReign(h, h', cluster, t, n, base, noop, quorum);
    forall u | u in h'.reigns
      ensures ReignShape(h'.reigns[u], u) && LogOk(h', h'.reigns[u].log) && Elected(h', cluster, u)
    {
      if u != t { ReignsGrow(h, h', cluster, u); }
    }
    OthersGrow(h, h', cluster, t, n);
  }

  /** The leader of term `t` appends an entry. */
  function Extend(h: History, t: Term, e: Entry): History
    requires t in h.reigns
  {
    var r := h.reigns[t];
    h.(reigns := h.reigns[t := r.(log := r.log + [e])],
       acks := h.acks[(t, r.leader) := |r.log| + 1])
  }

  lemma ExtendGrows(h: History, t: Term, e: Entry)
    requires AcksOk(h) && t in h.reigns
    ensures var h' := Extend(h, t, e); Grows(h, h') && ActedOnly(h, h', h.reigns[t].leader) && AcksOk(h')
  {}

  lemma ExtendReign(h: History, cluster: set<NodeID>, t: Term, e: Entry)
    requires HistoryOk(h, cluster) && t in h.reigns
    requires e.term == t && e.index == |h.reigns[t].log| + 1
    ensures var h' := Extend(h, t, e);
      ReignShape(h'.reigns[t], t) && LogOk(h', h'.reigns[t].log) && Elected(h', cluster, t)
  {
    hide BallotsOk, AcksOk, CommitsOk, ArrivalsOk, Grows, ActedOnly, LogOk, Quorum, Newer;
    var h' := Extend(h, t, e);
    ExtendGrows(h, t, e);
    assert LogOk(h, h.reigns[t].log) && ReignShape(h.reigns[t], t) && Elected(h, cluster, t);
    ElectLog(h, h', t, h.reigns[t].log, h'.reigns[t].log);
  }

  lemma ExtendOk(h: History, cluster: set<NodeID>, t: Term, e: Entry)
    requires HistoryOk(h, cluster) && t in h.reigns
    requires e.term == t && e.index == |h.reigns[t].log| + 1
    requires forall u :: (u, h.reigns[t].leader) in h.ballots ==> u <= t
    ensures var h' := Extend(h, t, e);
      HistoryOk(h', cluster) && Grows(h, h') && ActedOnly(h, h', h.reigns[t].leader)
  {
    hide ReignShape, LogOk, Elected, BallotsOk, CommitsOk, ArrivalsOk;
    var h' := Extend(h, t, e);
    ExtendGrows(h, t, e);
    forall u | u in h'.reigns
      ensures ReignShape(h'.reigns[u], u) && LogOk(h', h'.reigns[u].log) && Elected(h', cluster, u)
    {
      if u == t { ExtendReign(h, cluster, t, e); } else { ReignsGrow(h, h', cluster, u); }
    }
    OthersGrow(h, h', cluster, t, h.reigns[t].leader);
  }

  /** Node `p` acknowledges the log of term `t` up to `k`. */
  function Ack(h: History, t: Term, p: NodeID, k: Index): History {
    if (t, p) in h.acks && h.acks[(t, p)] >= k then h else h.(acks := h.acks[(t, p) := k])
  }

  lemma AckOk(h: History, cluster: set<NodeID>, t: Term, p: NodeID, k: Index)
    requires HistoryOk(h, cluster) && t in h.reigns && k <= |h.reigns[t].log|
    requires forall u :: (u, p) in h.ballots ==> u <= t
    ensures var h' := Ack(h, t, p, k); HistoryOk(h', cluster) && Grows(h, h') && ActedOnly(h, h', p)
  {
    hide ReignShape, LogOk, Elected, BallotOk, CommitsOk, ArrivalsOk;
    var h' := Ack(h, t, p, k);
    assert Grows(h, h');
    hide Grows;
    forall u | u in h'.reigns
      ensures ReignShape(h'.reigns[u], u) && LogOk(h', h'.reigns[u].log) && Elected(h', cluster, u)
    {
      ReignsGrow(h, h', cluster, u);
    }
    BallotsGrow(h, h');
    CommitsGrow(h, h', cluster);
    ArrivalsGrow(h, h', cluster);
  }

  function AddCommit(h: History, c: CommitEvent): History { h.(commits := h.commits + {c}) }

  lemma AddCommitOk(h: History, cluster: set<NodeID>, c: CommitEvent)
    requires HistoryOk(h, cluster) && CommitOk(h, cluster, c)
    ensures var h' := AddCommit(h, c);
      HistoryOk(h', cluster) && Grows(h, h') && ActedOnly(h, h', h.reigns[c.term].leader)
  {
    hide ReignShape, LogOk, Elected, BallotOk, ArrivalsOk, Quorum;
    var h' := AddCommit(h, c);
    assert Grows(h, h');
    forall u | u in h'.reigns
      ensures ReignShape(h'.reigns[u], u) && LogOk(h', h'.reigns[u].log) && Elected(h', cluster, u)
    {
      ReignsGrow(h, h', cluster, u);
    }
    BallotsGrow(h, h');
    forall d | d in h'.commits ensures CommitOk(h', cluster, d) {
      assert CommitOk(h, cluster, d);
      CommitGrows(h, h', cluster, d);
    }
    ArrivalsGrow(h, h', cluster);
  }

  /** A read reaches the leader of term `t`. */
  function AddArrival(h: History, t: Term, a: Arrival): History
    requires t in h.reigns
  {
    var r := h.reigns[t];
    h.(reigns := h.reigns[t := r.(arrivals := r.arrivals + [a])])
  }

  lemma AddArrivalArrivals(h: History, h': History, cluster: set<NodeID>, t: Term, a: Arrival)
    requires Grows(h, h') && CommitsOk(h, cluster) && ArrivalsOk(h, cluster)
    requires t in h.reigns && ArrivalOk(h, cluster, t, a) && h' == AddArrival(h, t, a)
    ensures ArrivalsOk(h', cluster)
  {
    forall u, i | u in h'.reigns && 0 <= i < |h'.reigns[u].arrivals|
      ensures ArrivalOk(h', cluster, u, h'.reigns[u].arrivals[i])
    {
      var b := h'.reigns[u].arrivals[i];
      if u == t && i == |h.reigns[t].arrivals| {
        assert b == a;
      } else {
        assert b == h.reigns[u].arrivals[i];
      }
      ArrivalGrows(h, h', cluster, u, b);
    }
  }

  lemma AddArrivalGrows(h: History, t: Term, a: Arrival)
    requires t in h.reigns
    ensures var h' := AddArrival(h, t, a); Grows(h, h') && ActedOnly(h, h', h.reigns[t].leader)
    ensures var h' := AddArrival(h, t, a);
      forall u :: u in h'.reigns ==> u in h.reigns && h'.reigns[u].log == h.reigns[u].log
  {}

  lemma AddArrivalRest(h: History, h': History, cluster: set<NodeID>)
    requires HistoryOk(h, cluster) && Grows(h, h')
    requires h'.ballots == h.ballots && h'.acks == h.acks && h'.commits == h.commits
    requires forall u :: u in h'.reigns ==> u in h.reigns && h'.reigns[u].log == h.reigns[u].log
    ensures ReignsOk(h', cluster) && BallotsOk(h') && AcksOk(h') && CommitsOk(h', cluster)
  {
    forall u | u in h'.reigns
      ensures ReignShape(h'.reigns[u], u) && LogOk(h', h'.reigns[u].log) && Elected(h', cluster, u)
    {
      ReignsGrow(h, h', cluster, u);
    }
    forall u, p | (u, p) in h.ballots && Counted(h', u, p) ensures Counted(h, u, p) {
      if u in h.reigns { assert ReignGrows(h.reigns[u], h'.reigns[u]); }
    }
    BallotsGrow(h, h');
    CommitsGrow(h, h', cluster);
  }

  lemma AddArrivalOk(h: History, cluster: set<NodeID>, t: Term, a: Arrival)
    requires HistoryOk(h, cluster) && t in h.reigns && ArrivalOk(h, cluster, t, a)
    ensures var h' := AddArrival(h, t, a);
      HistoryOk(h', cluster) && Grows(h, h') && ActedOnly(h, h', h.reigns[t].leader)
  {
    var h' := AddArrival(h, t, a);
    AddArrivalGrows(h, t, a);
    AddArrivalRest(h, h', cluster);
    AddArrivalArrivals(h, h', cluster, t, a);
  }
}
