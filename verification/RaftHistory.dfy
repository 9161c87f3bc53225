/** What has happened in a cluster so far, recorded per term. No theorem about runs mentions it. */
module RaftHistory {
  import opened Common
  import opened RaftLog

  // The record holds ballots, reigns (elections with the leader's log), acknowledged indexes, commits, arrivals of
  // reads and writes, and restarts of nodes that led or followed in the term. The invariants of the protocol are stated
  // per history, per node and per message, so that a step only has to re-establish those it touches.

  /** A granted vote, with the voter's log at the time of voting. */
  datatype Ballot = Ballot(candidate: NodeID, log: seq<Entry>)

  /** A leader committed `index` in its own term; `quorum` acknowledged it. */
  datatype CommitEvent = CommitEvent(term: Term, index: Index, quorum: set<NodeID>)

  /** A read request reached the leader: every node's term, and all commits, at that time. */
  datatype Arrival = Arrival(
    step: nat, from: NodeID, id: nat, command: Command,
    terms: map<NodeID, Term>, commits: set<CommitEvent>)

  /** A write request reached the leader, which appended it at `index`. */
  datatype Proposal = Proposal(
    step: nat, term: Term, index: Index, from: NodeID, id: nat, command: Command)

  /** A term's leader: its log when elected, its log so far, and who elected it. */
  datatype Reign = Reign(
    leader: NodeID, base: seq<Entry>, log: seq<Entry>, quorum: set<NodeID>, arrivals: seq<Arrival>)

  datatype History = History(
    ballots: map<(Term, NodeID), Ballot>,
    reigns: map<Term, Reign>,
    acks: map<(Term, NodeID), Index>,
    commits: set<CommitEvent>,
    restarts: set<(Term, NodeID)>,
    proposals: set<Proposal>)

  const NO_HISTORY := History(map[], map[], map[], {}, {}, {})

  // ---------------------------------------------------------------- quorums

  predicate Quorum(cluster: set<NodeID>, q: set<NodeID>) {
    q <= cluster && 2 * |q| > |cluster|
  }

  /** Any two quorums of a cluster share a node. */
  lemma QuorumsMeet(cluster: set<NodeID>, a: set<NodeID>, b: set<NodeID>) returns (p: NodeID)
    requires Quorum(cluster, a) && Quorum(cluster, b)
    ensures p in a && p in b
  {
    SubsetSize(a + b, cluster);
    assert |a + b| + |a * b| == |a| + |b|;
    p :| p in a * b;
  }

  // ---------------------------------------------------------------- history invariants

  /** Up to entry `i`, the log is the log of the leader that wrote that entry. */
  ghost predicate EntryOk(h: History, l: seq<Entry>, i: nat)
    requires i < |l|
  {
    && l[i].index == i + 1
    && l[i].term in h.reigns
    && i < |h.reigns[l[i].term].log|
    && l[..i + 1] == h.reigns[l[i].term].log[..i + 1]
  }

  ghost predicate LogOk(h: History, l: seq<Entry>) {
    forall i :: 0 <= i < |l| ==> EntryOk(h, l, i)
  }

  /** The shape of a reign: old terms in the base, its own term after it. */
  ghost predicate ReignShape(r: Reign, t: Term) {
    && t > 0
    && r.base <= r.log
    && |r.base| < |r.log|
    && (forall i :: 0 <= i < |r.base| ==> r.log[i].term < t)
    && (forall i :: |r.base| <= i < |r.log| ==> r.log[i].term == t)
  }

  ghost predicate Elected(h: History, cluster: set<NodeID>, t: Term)
    requires t in h.reigns
  {
    var r := h.reigns[t];
    && r.leader in cluster
    && Quorum(cluster, r.quorum)
    && forall p :: p in r.quorum ==>
         && (t, p) in h.ballots
         && h.ballots[(t, p)].candidate == r.leader
         && !Newer(h.ballots[(t, p)].log, |r.base|, LastTerm(r.base))
  }

  ghost predicate ReignsOk(h: History, cluster: set<NodeID>) {
    forall t :: t in h.reigns ==>
      ReignShape(h.reigns[t], t) && LogOk(h, h.reigns[t].log) && Elected(h, cluster, t)
  }

  /** The first `k` entries of reign `t`, kept in `l` unless a leader before `bound` lacks them. */
  ghost predicate Retained(h: History, l: seq<Entry>, t: Term, k: Index, bound: Term) {
    && t in h.reigns
    && k <= |h.reigns[t].log|
    && (h.reigns[t].log[..k] <= l ||
        exists u :: t < u < bound && u in h.reigns && !(h.reigns[t].log[..k] <= h.reigns[u].base))
  }

  /** Everything `p` acknowledged before term `bound` is retained in `l`. */
  ghost predicate AcksRetained(h: History, l: seq<Entry>, p: NodeID, before: Term, bound: Term) {
    forall t, k :: t < before && (t, p) in h.acks && k <= h.acks[(t, p)] ==> Retained(h, l, t, k, bound)
  }

  /** Ballots that may have decided the election of their term. */
  predicate Counted(h: History, t: Term, p: NodeID) {
    t !in h.reigns || p in h.reigns[t].quorum
  }

  ghost predicate BallotOk(h: History, t: Term, p: NodeID)
    requires (t, p) in h.ballots
  {
    var b := h.ballots[(t, p)];
    && LogOk(h, b.log)
    && (t, b.candidate) in h.ballots
    && h.ballots[(t, b.candidate)].candidate == b.candidate
    && !Newer(b.log, |h.ballots[(t, b.candidate)].log|, LastTerm(h.ballots[(t, b.candidate)].log))
    && (Counted(h, t, p) ==> AcksRetained(h, b.log, p, t, t))
  }

  ghost predicate BallotsOk(h: History) {
    forall t, p :: (t, p) in h.ballots ==> BallotOk(h, t, p)
  }

  /** Acknowledgements are of the leader's log; a node has one, if only of index 0, once it leads or follows. */
  ghost predicate AcksOk(h: History) {
    && (forall t, p :: (t, p) in h.acks ==> t in h.reigns && h.acks[(t, p)] <= |h.reigns[t].log|)
    && (forall t :: t in h.reigns ==> (t, h.reigns[t].leader) in h.acks)
  }

  ghost predicate CommitOk(h: History, cluster: set<NodeID>, c: CommitEvent) {
    && c.term in h.reigns
    && Has(h.reigns[c.term].log, c.index, c.term)
    && Quorum(cluster, c.quorum)
    && forall p :: p in c.quorum ==> (c.term, p) in h.acks && h.acks[(c.term, p)] >= c.index
  }

  ghost predicate CommitsOk(h: History, cluster: set<NodeID>) {
    forall c :: c in h.commits ==> CommitOk(h, cluster, c)
  }

  /** At a read's arrival, the electors of every committing leader had reached its term. */
  ghost predicate ArrivalOk(h: History, cluster: set<NodeID>, t: Term, a: Arrival) {
    && t in h.reigns
    && a.terms.Keys == cluster
    && h.reigns[t].leader in cluster
    && a.terms[h.reigns[t].leader] <= t
    && a.commits <= h.commits
    && forall c, p :: c in a.commits && c.term in h.reigns && p in h.reigns[c.term].quorum ==>
         p in cluster && a.terms[p] >= c.term
  }

  ghost predicate ArrivalsOk(h: History, cluster: set<NodeID>) {
    forall t, i :: t in h.reigns && 0 <= i < |h.reigns[t].arrivals| ==>
      ArrivalOk(h, cluster, t, h.reigns[t].arrivals[i])
  }

  ghost predicate HistoryOk(h: History, cluster: set<NodeID>) {
    && ReignsOk(h, cluster)
    && BallotsOk(h)
    && AcksOk(h)
    && CommitsOk(h, cluster)
    && ArrivalsOk(h, cluster)
  }

  // ---------------------------------------------------------------- log matching

  /** Section 5.3 of the Raft paper: same index and term, then the same log up to there. */
  lemma MatchingLogs(h: History, a: seq<Entry>, b: seq<Entry>, i: nat)
    requires LogOk(h, a) && LogOk(h, b)
    requires i < |a| && i < |b| && a[i].term == b[i].term
    ensures a[..i + 1] == b[..i + 1]
  {
    assert EntryOk(h, a, i) && EntryOk(h, b, i);
  }

  /** Terms never decrease along a log. */
  lemma TermsAscending(h: History, cluster: set<NodeID>, l: seq<Entry>, i: nat, j: nat)
    requires ReignsOk(h, cluster) && LogOk(h, l)
    requires i <= j < |l|
    ensures 0 < l[i].term <= l[j].term
  {
    assert EntryOk(h, l, j) && EntryOk(h, l, i);
    var r := h.reigns[l[j].term];
    assert l[i] == l[..j + 1][i] == r.log[..j + 1][i] == r.log[i];
    assert ReignShape(r, l[j].term);
  }

  /** A prefix of a well-formed log is well-formed. */
  lemma PrefixOk(h: History, l: seq<Entry>, k: nat)
    requires LogOk(h, l) && k <= |l|
    ensures LogOk(h, l[..k])
  {
    forall i | 0 <= i < k ensures EntryOk(h, l[..k], i) {
      assert EntryOk(h, l, i);
      assert l[..k][..i + 1] == l[..i + 1];
    }
  }

  // ---------------------------------------------------------------- leader completeness

  /**
   * Sections 5.4.1 to 5.4.3 of the Raft paper: a committed prefix is part of
   * the log every later leader was elected with.
   */
  lemma LeaderCompleteness(h: History, cluster: set<NodeID>, c: CommitEvent, t: Term)
    requires HistoryOk(h, cluster)
    requires c in h.commits && c.term < t && t in h.reigns
    ensures c.index <= |h.reigns[c.term].log|
    ensures h.reigns[c.term].log[..c.index] <= h.reigns[t].base
    decreases t
  {
    assert CommitOk(h, cluster, c) && Elected(h, cluster, t);
    var x := h.reigns[c.term].log[..c.index];
    var p := QuorumsMeet(cluster, c.quorum, h.reigns[t].quorum);
    var ballot := h.ballots[(t, p)];
    assert BallotOk(h, t, p);
    assert Retained(h, ballot.log, c.term, c.index, t);
    forall u | c.term < u < t && u in h.reigns ensures x <= h.reigns[u].base {
      LeaderCompleteness(h, cluster, c, u);
    }
    assert x <= ballot.log;
    ElectedHolds(h, cluster, c, t, ballot.log, x);
  }

  /** The step of completeness: a log that is not behind one holding `x` holds `x` too. */
  lemma ElectedHolds(h: History, cluster: set<NodeID>, c: CommitEvent, t: Term, voter: seq<Entry>, x: seq<Entry>)
    requires ReignsOk(h, cluster) && CommitOk(h, cluster, c) && t in h.reigns && c.term < t
    requires x == h.reigns[c.term].log[..c.index] && x <= voter && LogOk(h, voter)
    requires !Newer(voter, |h.reigns[t].base|, LastTerm(h.reigns[t].base))
    requires forall u :: c.term < u < t && u in h.reigns ==> x <= h.reigns[u].base
    ensures x <= h.reigns[t].base
  {
    hide LogOk, Quorum, Elected;
    var base := h.reigns[t].base;
    BaseOk(h, cluster, t);
    var last := |voter| - 1;
    assert voter[c.index - 1] == x[c.index - 1];
    assert voter[c.index - 1].term == c.term;
    TermsAscending(h, cluster, voter, c.index - 1, last);
    assert LastTerm(base) >= LastTerm(voter) >= c.term > 0;
    var end := |base| - 1;
    if LastTerm(base) == LastTerm(voter) {
      SameLastReign(h, voter, base);
    } else {
      hide ReignsOk;
      assert base[end].term in h.reigns by { EntryAt(h, base, end); }
      LaterReign(h, cluster, base, end, c.index, x);
    }
  }

  lemma BaseOk(h: History, cluster: set<NodeID>, t: Term)
    requires ReignsOk(h, cluster) && t in h.reigns
    ensures LogOk(h, h.reigns[t].base) && forall i :: 0 <= i < |h.reigns[t].base| ==> h.reigns[t].base[i].term < t
  {
    hide LogOk, Elected;
    var r := h.reigns[t];
    assert ReignShape(r, t) && LogOk(h, r.log);
    assert r.base == r.log[..|r.base|];
    PrefixOk(h, r.log, |r.base|);
  }

  /** Of two logs that end in the same reign, the longer extends the shorter. */
  lemma SameLastReign(h: History, a: seq<Entry>, b: seq<Entry>)
    requires LogOk(h, a) && LogOk(h, b) && a != [] && |a| <= |b| && LastTerm(a) == LastTerm(b)
    ensures a <= b
  {
    hide LogOk;
    EntryAt(h, a, |a| - 1);
    EntryAt(h, b, |b| - 1);
    assert a == a[..|a|] && b == b[..|b|];
  }

  /** A log whose entry `i` is of a reign that began with `x` holds `x`. */
  lemma LaterReign(h: History, cluster: set<NodeID>, l: seq<Entry>, i: nat, k: nat, x: seq<Entry>)
    requires ReignsOk(h, cluster) && LogOk(h, l) && i < |l| && k == |x| && l[i].term in h.reigns
    requires x <= h.reigns[l[i].term].base
    ensures x <= l
  {
    hide LogOk, Elected;
    assert EntryOk(h, l, i) by { EntryAt(h, l, i); }
    var r := h.reigns[l[i].term];
    assert ReignShape(r, l[i].term);
    assert l[i] == l[..i + 1][i] == r.log[..i + 1][i] == r.log[i];
    assert x == r.base[..k] == r.log[..k] == l[..i + 1][..k];
  }

  lemma EntryAt(h: History, l: seq<Entry>, i: nat)
    requires LogOk(h, l) && i < |l|
    ensures EntryOk(h, l, i)
  {}

  /** `s` is known to be committed by leaders up to term `bound`. */
  ghost predicate Committed(h: History, s: seq<Entry>, bound: Term) {
    s == [] || exists c :: c in h.commits && CommitCovers(h, c, s, bound)
  }

  ghost predicate CommitCovers(h: History, c: CommitEvent, s: seq<Entry>, bound: Term) {
    && c.term <= bound
    && c.term in h.reigns
    && c.index <= |h.reigns[c.term].log|
    && s <= h.reigns[c.term].log[..c.index]
  }

  /** Committed prefixes are part of the log of every leader of their term or later. */
  lemma CommittedInReign(h: History, cluster: set<NodeID>, s: seq<Entry>, t: Term)
    requires HistoryOk(h, cluster) && t in h.reigns
    requires Committed(h, s, t)
    ensures s <= h.reigns[t].log
  {
    hide ReignsOk, BallotsOk, AcksOk, CommitsOk, LogOk, Elected;
    if s != [] {
      var c :| c in h.commits && CommitCovers(h, c, s, t);
      if c.term < t {
        LeaderCompleteness(h, cluster, c, t);
        BaseInLog(h, cluster, t);
      }
    }
  }

  lemma BaseInLog(h: History, cluster: set<NodeID>, t: Term)
    requires ReignsOk(h, cluster) && t in h.reigns
    ensures h.reigns[t].base <= h.reigns[t].log
  {
    hide LogOk, Elected;
    assert ReignShape(h.reigns[t], t);
  }

  lemma PrefixesOfOne(a: seq<Entry>, b: seq<Entry>, l: seq<Entry>)
    requires a <= l && b <= l
    ensures a <= b || b <= a
  {
    assert a == l[..|a|] && b == l[..|b|];
  }

  /** Two committed prefixes never disagree: one is a prefix of the other. */
  lemma CommittedAgree(h: History, cluster: set<NodeID>, a: seq<Entry>, b: seq<Entry>, m: Term, n: Term)
    requires HistoryOk(h, cluster)
    requires Committed(h, a, m) && Committed(h, b, n)
    ensures a <= b || b <= a
  {
    if a != [] && b != [] {
      var c :| c in h.commits && CommitCovers(h, c, a, m);
      var d :| d in h.commits && CommitCovers(h, d, b, n);
      if c.term <= d.term {
        CommittersAgree(h, cluster, a, b, c, d);
      } else {
        CommittersAgree(h, cluster, b, a, d, c);
      }
    }
  }

  lemma CommittersAgree(h: History, cluster: set<NodeID>, a: seq<Entry>, b: seq<Entry>, c: CommitEvent, d: CommitEvent)
    requires HistoryOk(h, cluster)
    requires c in h.commits && d in h.commits && c.term <= d.term
    requires CommitCovers(h, c, a, c.term) && CommitCovers(h, d, b, d.term)
    ensures a <= b || b <= a
  {
    assert CommitCovers(h, c, a, d.term);
    CommittedInReign(h, cluster, a, d.term);
    PrefixesOfOne(a, b, h.reigns[d.term].log);
  }
}
