/**
 * Followers and candidates keep the invariant of RaftInvariant.
 *
 * Each lemma takes one part of `StepFollower` or of the election functions of
 * RaftNode, and gives a history in which the node, its messages and what has
 * happened before are still in order (`Good`):
 *
 * - discovering a later term, which promises nothing yet;
 * - following a leader, recorded as an acknowledgement of index 0 of its log;
 * - heartbeats and appends, where splicing the leader's entries keeps whatever
 *   the follower shares with its leader, and so all it has acknowledged;
 * - votes, which record the voter's log at the time;
 * - messages that only a node which has restarted in its term can halt on.
 */
module RaftFollower {
  import opened Common
  import opened RaftLog
  import opened RaftNode
  import opened RaftHistory
  import opened RaftGrowth
  import opened RaftInvariant

  // ---------------------------------------------------------------- now

  lemma AcksRetainedWider(h: History, l: seq<Entry>, p: NodeID, before: Term, bound: Term, before': Term, bound': Term)
    requires AcksRetained(h, l, p, before, bound) && bound <= bound'
    requires forall t :: (t, p) in h.acks && t < before' ==> t < before
    ensures AcksRetained(h, l, p, before', bound')
  {
    forall t, k | t < before' && (t, p) in h.acks && k <= h.acks[(t, p)] ensures Retained(h, l, t, k, bound') {
      assert Retained(h, l, t, k, bound);
    }
  }

  /** A node may move to a later term, in any role that promises nothing yet. */
  lemma LaterTerm(h: History, cluster: set<NodeID>, n: Node, n': Node)
    requires DurableOk(h, cluster, n)
    requires n' == n.(log := n'.log, role := n'.role) && n'.log == n.log.(term := n'.log.term, vote := None)
    requires n'.log.term > n.log.term
    ensures DurableOk(h, cluster, n')
  {
    GrowsReflexive(h);
    AcksRetainedWider(h, n.log.entries, n.id, n.log.term + 1, n.log.term + 1, n'.log.term + 1, n'.log.term + 1);
    CommittedGrows(h, h, n.log.entries[..n.log.commitIndex], n.log.term, n'.log.term);
    CommittedGrows(h, h, n.applied, n.log.term, n'.log.term);
  }

  /** Aborts go to local clients, or to nodes that forwarded a request to their leader. */
  lemma AbortsOk(h: History, cluster: set<NodeID>, n: Node)
    requires n.id in cluster && (n.role.Leader? ==> LeaderOk(h, n))
    ensures forall e :: e in Aborts(n) ==> MailOk(h, cluster, e)
  {
    hide PeerOk;
  }

  lemma EnterTermGood(cluster: set<NodeID>, now: Moment, h: History, n: Node, term: Term)
    requires HistoryOk(h, cluster) && NodeOk(h, cluster, n) && term > n.log.term
    ensures var o := EnterTerm(n, term);
      o.node.role.Follower? && o.node.log.term == term && Good(cluster, now, h, h, n.id, o)
  {
    var o := EnterTerm(n, term);
    LaterTerm(h, cluster, n, o.node);
    AbortsOk(h, cluster, n);
    GoodStill(cluster, now, h, o);
  }

  // ---------------------------------------------------------------- follower

  /** Following a leader is recorded as having acknowledged index 0 of its log. */
  lemma FollowGood(cluster: set<NodeID>, now: Moment, h: History, n: Node, n': Node)
    requires HistoryOk(h, cluster) && DurableOk(h, cluster, n) && n.log.term in h.reigns
    requires n' == n.(role := n'.role) && n'.role.Follower? && n'.role.leader == Some(h.reigns[n.log.term].leader)
    requires n'.role.leader.value != n.id
    ensures Good(cluster, now, h, Ack(h, n.log.term, n.id, 0), n.id, Quiet(n'))
  {
    hide ReignsOk, BallotsOk, AcksOk, CommitsOk, ArrivalsOk, AcksRetained, Committed;
    var h' := Ack(h, n.log.term, n.id, 0);
    AckOk(h, cluster, n.log.term, n.id, 0);
    LogGrows(h, h', n.log.entries);
    CommitsKeptGrow(h, h', n.log, n.applied);
    AckKept(h, h', n.id, n.log.term, n.log.entries, 0);
  }

  lemma HearLeaderGood(cluster: set<NodeID>, now: Moment, h: History, n: Node, e: Envelope) returns (h': History)
    requires HistoryOk(h, cluster) && NodeOk(h, cluster, n) && n.role.Follower?
    requires MailOk(h, cluster, e) && e.to == n.id && e.term == n.log.term && FromLeader(h, e)
    ensures var o := HearLeader(n, e.from);
      && o.node == n.(role := o.node.role)
      && o.node.role.Follower? && o.node.role.leader == Some(e.from)
      && Good(cluster, now, h, h', n.id, o)
    ensures h'.reigns == h.reigns && h'.commits == h.commits && MailOk(h', cluster, e)
  {
    hide HistoryOk, EntriesOk, VoteMatches, AcksKept, CommitsKept, TermCurrent, MessageOk, Grows, ActedOnly,
      ArrivalsNow;
    var o := HearLeader(n, e.from);
    h' := Ack(h, n.log.term, n.id, 0);
    FollowGood(cluster, now, h, n, o.node);
    AbortsOk(h', cluster, n);
    MailGrows(h, h', cluster, e);
  }

  /** The two logs agree up to an entry they share. */
  lemma SharedPrefix(h: History, a: seq<Entry>, b: seq<Entry>, k: Index)
    requires LogOk(h, a) && LogOk(h, b)
    requires k > 0 ==> Has(a, k, TermAt(b, k)) && k <= |b|
    ensures k <= |a| && k <= |b| && a[..k] == b[..k]
  {
    if k > 0 { MatchingLogs(h, a, b, k - 1); }
  }

  /** Confirming a leader's reads is sound while we are in its term. */
  lemma ConfirmsNow(h: History, cluster: set<NodeID>, id: NodeID, t: Term, readSeq: nat)
    requires ArrivalsOk(h, cluster) && TermCurrent(h, id, t) && id in cluster
    requires t in h.reigns && readSeq <= |h.reigns[t].arrivals|
    ensures Confirmed(h, t, id, readSeq)
  {
    forall i | 0 <= i < readSeq
      ensures id in h.reigns[t].arrivals[i].terms && h.reigns[t].arrivals[i].terms[id] <= t
    {
      assert ArrivalOk(h, cluster, t, h.reigns[t].arrivals[i]);
    }
  }

  lemma AckKept(h: History, h': History, id: NodeID, t: Term, l: seq<Entry>, k: Index)
    requires Grows(h, h') && h' == Ack(h, t, id, k) && AcksKept(h, id, l, t)
    requires t in h.reigns && k <= |h.reigns[t].log| && h.reigns[t].log[..k] <= l
    ensures AcksKept(h', id, l, t)
  {
    var bound := t + 1;
    forall u: Term, j: Index | u < bound && (u, id) in h'.acks && j <= h'.acks[(u, id)]
      ensures Retained(h', l, u, j, bound) {
      if u == t && j <= k {
        var log := h.reigns[t].log;
        assert log[..j] == log[..k][..j];
      } else {
        assert Retained(h, l, u, j, bound);
        RetainedGrows(h, h', l, u, j, bound);
      }
    }
  }

  /** A follower acknowledges `k` entries of its leader's log, which it holds. */
  lemma AckGood(cluster: set<NodeID>, now: Moment, h: History, n: Node, k: Index)
    requires HistoryOk(h, cluster) && NodeOk(h, cluster, n) && n.role.Follower?
    requires n.role.leader.Some? && n.log.term in h.reigns && k <= |h.reigns[n.log.term].log|
    requires h.reigns[n.log.term].log[..k] <= n.log.entries
    ensures var h' := Ack(h, n.log.term, n.id, k);
      Good(cluster, now, h, h', n.id, Quiet(n)) && Acked(h', n.log.term, n.id, k)
      && h'.reigns == h.reigns && h'.commits == h.commits
  {
    hide ReignsOk, BallotsOk, AcksOk, CommitsOk, ArrivalsOk, AcksRetained, Committed;
    var h' := Ack(h, n.log.term, n.id, k);
    AckOk(h, cluster, n.log.term, n.id, k);
    LogGrows(h, h', n.log.entries);
    CommitsKeptGrow(h, h', n.log, n.applied);
    AckKept(h, h', n.id, n.log.term, n.log.entries, k);
  }

  lemma ApplyKeeps(h: History, cluster: set<NodeID>, n: Node)
    requires DurableOk(h, cluster, n)
    ensures DurableOk(h, cluster, MaybeApply(n))
    ensures |MaybeApply(n).applied| >= n.log.commitIndex
    ensures MaybeApply(n) == n.(applied := MaybeApply(n).applied)
  {
    var n' := MaybeApply(n);
    if |n.applied| < n.log.commitIndex {
      assert n.applied == n.log.entries[..|n.applied|];
      assert n'.applied == n.log.entries[..n.log.commitIndex];
    }
  }

  /** A follower commits and applies a prefix its leader has committed. */
  lemma FollowerCommits(h: History, cluster: set<NodeID>, n: Node, index: Index)
    requires NodeOk(h, cluster, n) && n.role.Follower?
    requires n.log.commitIndex < index <= |n.log.entries|
    requires Committed(h, n.log.entries[..index], n.log.term)
    ensures Commit(n.log, index).Done?
    ensures NodeOk(h, cluster, MaybeApply(n.(log := Commit(n.log, index).log)))
  {
    hide EntriesOk, VoteMatches, AcksKept, TermCurrent, Committed;
    ApplyKeeps(h, cluster, n.(log := Commit(n.log, index).log));
  }

  lemma HeartbeatMatches(cluster: set<NodeID>, now: Moment, h: History, n: Node, m: Message)
    requires HistoryOk(h, cluster) && NodeOk(h, cluster, n) && n.role.Follower? && m.Heartbeat?
    requires n.log.term in h.reigns && HeartbeatOk(h, n.log.term, m.lastIndex, m.commitIndex, m.readSeq)
    requires Has(n.log.entries, m.lastIndex, n.log.term)
    ensures h.reigns[n.log.term].log[..m.lastIndex] <= n.log.entries
    ensures m.commitIndex <= |n.log.entries| && Committed(h, n.log.entries[..m.commitIndex], n.log.term)
  {
    hide BallotsOk, AcksOk, CommitsOk, ArrivalsOk, VoteMatches, AcksKept, TermCurrent, CommitsKept, Committed;
    var log := h.reigns[n.log.term].log;
    assert LogOk(h, log);
    SharedPrefix(h, n.log.entries, log, m.lastIndex);
    assert n.log.entries[..m.commitIndex] == n.log.entries[..m.lastIndex][..m.commitIndex] == log[..m.commitIndex];
  }

  lemma OnHeartbeatGood(cluster: set<NodeID>, now: Moment, h: History, n: Node, e: Envelope) returns (h': History)
    requires HistoryOk(h, cluster) && NodeOk(h, cluster, n) && n.role.Follower? && n.role.leader.Some?
    requires MailOk(h, cluster, e) && e.to == n.id && e.term == n.log.term && e.message.Heartbeat?
    ensures var m := e.message;
      Good(cluster, now, h, h', n.id, OnHeartbeat(n, e.from, m.lastIndex, m.commitIndex, m.readSeq))
  {
    hide ReignsOk, BallotsOk, AcksOk, CommitsOk, ArrivalsOk, EntriesOk, VoteMatches, AcksKept, TermCurrent, Committed,
      Confirmed, Grows, ActedOnly, ArrivalsNow;
    var m := e.message;
    var t := n.log.term;
    var o := OnHeartbeat(n, e.from, m.lastIndex, m.commitIndex, m.readSeq);
    ConfirmsNow(h, cluster, n.id, t, m.readSeq);
    if Has(n.log.entries, m.lastIndex, t) {
      HeartbeatMatches(cluster, now, h, n, m);
      AckGood(cluster, now, h, n, m.lastIndex);
      h' := Ack(h, t, n.id, m.lastIndex);
      ConfirmedGrows(h, h', t, n.id, m.readSeq);
      if m.commitIndex > n.log.commitIndex {
        CommittedGrows(h, h', n.log.entries[..m.commitIndex], t, t);
        FollowerCommits(h', cluster, n, m.commitIndex);
      }
    } else {
      h' := h;
      GoodStill(cluster, now, h, o);
    }
  }

  // ---------------------------------------------------------------- splicing

  /** The entries of a leader's append, as the checks of `splice` see them. */
  lemma AppendShape(h: History, cluster: set<NodeID>, t: Term, base: Index, baseTerm: Term, es: seq<Entry>)
    requires ReignsOk(h, cluster) && t in h.reigns && AppendOk(h, t, base, baseTerm, es)
    ensures forall i :: 0 <= i < |es| ==>
      es[i] == h.reigns[t].log[base + i] && es[i].index == base + i + 1 && 0 < es[i].term <= t
    ensures Contiguous(es) && TermsAscend(es)
    ensures es != [] ==> TermAt(h.reigns[t].log, base) <= es[0].term
  {
    var log := h.reigns[t].log;
    assert ReignShape(h.reigns[t], t) && LogOk(h, log);
    forall i | 0 <= i < |es| ensures es[i] == log[base + i] && es[i].index == base + i + 1 && 0 < es[i].term <= t {
      assert EntryOk(h, log, base + i);
      TermsAscending(h, cluster, log, base + i, base + i);
    }
    forall i | 0 < i < |es| ensures es[i - 1].term <= es[i].term {
      TermsAscending(h, cluster, log, base + i - 1, base + i);
    }
    if es != [] && base > 0 {
      TermsAscending(h, cluster, log, base - 1, base);
    }
  }

  /** A follower's log, and an append of its leader whose base it holds. */
  ghost predicate Splicing(h: History, cluster: set<NodeID>, l: seq<Entry>, t: Term, base: Index, baseTerm: Term,
    es: seq<Entry>) {
    && ReignsOk(h, cluster) && LogOk(h, l)
    && t in h.reigns && LogOk(h, h.reigns[t].log) && AppendOk(h, t, base, baseTerm, es)
    && (base == 0 || Has(l, base, baseTerm))
  }

  /** Spliced entries that are stored already agree with the leader's log. */
  lemma StoredAgrees(h: History, cluster: set<NodeID>, l: seq<Entry>, t: Term, base: Index, baseTerm: Term,
    es: seq<Entry>)
    requires Splicing(h, cluster, l, t, base, baseTerm, es)
    ensures var k := Stored(l, es);
      base + k <= |l| && l[..base + k] == h.reigns[t].log[..base + k] && CommandsAgree(l, es, k)
  {
    hide ReignsOk, LogOk, Stored, Contiguous, TermsAscend;
    var log := h.reigns[t].log;
    var k := Stored(l, es);
    AppendShape(h, cluster, t, base, baseTerm, es);
    forall i | 0 <= i < k
      ensures Has(l, es[i].index, es[i].term) && l[es[i].index - 1].command == es[i].command
    {
      assert Has(l, es[i].index, es[i].term);
      MatchingLogs(h, l, log, base + i);
      assert l[base + i] == l[..base + i + 1][base + i] == log[base + i];
    }
    if k > 0 {
      assert Has(l, es[k - 1].index, es[k - 1].term);
      MatchingLogs(h, l, log, base + k - 1);
    } else if base > 0 {
      MatchingLogs(h, l, log, base - 1);
    }
  }

  /** A conflict lies beyond everything the follower shares with its leader. */
  lemma SharedBelowConflict(h: History, cluster: set<NodeID>, l: seq<Entry>, t: Term, base: Index, baseTerm: Term,
    es: seq<Entry>, s: seq<Entry>)
    requires Splicing(h, cluster, l, t, base, baseTerm, es)
    requires s <= l && s <= h.reigns[t].log
    ensures Stored(l, es) < |es| ==> |s| <= base + Stored(l, es)
  {
    hide ReignsOk, LogOk, Stored, Contiguous, TermsAscend;
    var k := Stored(l, es);
    AppendShape(h, cluster, t, base, baseTerm, es);
    assert forall i :: 0 <= i < |s| ==> s[i] == l[i] && s[i] == h.reigns[t].log[i];
  }

  /** Replacing the log from the first conflict gives a prefix of the leader's log. */
  lemma SpliceConflict(h: History, cluster: set<NodeID>, l: seq<Entry>, t: Term, base: Index, baseTerm: Term,
    es: seq<Entry>)
    requires Splicing(h, cluster, l, t, base, baseTerm, es)
    requires Stored(l, es) < |es|
    ensures var k := Stored(l, es);
      es[k].index == base + k + 1 && Between(l, 0, base + k) + es[k..] == h.reigns[t].log[..base + |es|]
  {
    hide ReignsOk, LogOk, Stored, Contiguous, TermsAscend, CommandsAgree;
    StoredAgrees(h, cluster, l, t, base, baseTerm, es);
    AppendShape(h, cluster, t, base, baseTerm, es);
    var k := Stored(l, es);
    var log := h.reigns[t].log;
    assert es[k..] == log[base + k..base + |es|];
    assert log[..base + |es|] == log[..base + k] + log[base + k..base + |es|];
  }

  /** The checks at the start of `splice` all pass. */
  lemma SpliceChecks(h: History, cluster: set<NodeID>, l: Log, base: Index, baseTerm: Term, es: seq<Entry>)
    requires Splicing(h, cluster, l.entries, l.term, base, baseTerm, es) && es != []
    ensures es[0].index == base + 1 && es[0].term > 0 && Contiguous(es) && TermsAscend(es)
    ensures es[|es| - 1].term <= l.term && base <= |l.entries| && TermAt(l.entries, base) <= es[0].term
  {
    AppendShape(h, cluster, l.term, base, baseTerm, es);
    hide ReignsOk, LogOk, Contiguous, TermsAscend;
    if base > 0 {
      assert TermAt(l.entries, base) == TermAt(h.reigns[l.term].log, base);
    }
  }

  /** `Splice`, once its checks have passed. */
  lemma SpliceResult(l: Log, es: seq<Entry>)
    requires es != [] && es[0].index > 0 && es[0].term > 0 && Contiguous(es) && TermsAscend(es)
    requires es[|es| - 1].term <= l.term && es[0].index - 1 <= |l.entries|
    requires TermAt(l.entries, es[0].index - 1) <= es[0].term
    requires CommandsAgree(l.entries, es, Stored(l.entries, es))
    ensures var k := Stored(l.entries, es);
      && (k == |es| ==> Splice(l, es) == Done(l))
      && (k < |es| && es[k].index > l.commitIndex ==>
            Splice(l, es) == Done(l.(entries := Between(l.entries, 0, es[k].index - 1) + es[k..])))
  {
    hide Stored, Contiguous, TermsAscend, CommandsAgree, Between, TermAt;
  }

  /** The splice succeeds, only changes entries, and the result follows the leader's log. */
  ghost predicate Follows(h: History, l: Log, base: Index, es: seq<Entry>)
    requires l.term in h.reigns
  {
    var log := h.reigns[l.term].log;
    && base + |es| <= |log|
    && Splice(l, es).Done?
    && var r := Splice(l, es).log;
       && r == l.(entries := r.entries)
       && log[..base + |es|] <= r.entries
       && (r.entries == l.entries || (Stored(l.entries, es) < |es| && r.entries == log[..base + |es|]))
  }

  lemma FollowsStored(h: History, l: Log, base: Index, es: seq<Entry>)
    requires l.term in h.reigns && base + |es| <= |h.reigns[l.term].log|
    requires Splice(l, es) == Done(l) && base + |es| <= |l.entries|
    requires l.entries[..base + |es|] == h.reigns[l.term].log[..base + |es|]
    ensures Follows(h, l, base, es)
  {
    hide Splice, Stored;
  }

  lemma FollowsConflict(h: History, l: Log, base: Index, es: seq<Entry>)
    requires l.term in h.reigns && base + |es| <= |h.reigns[l.term].log| && Stored(l.entries, es) < |es|
    requires Splice(l, es) == Done(l.(entries := h.reigns[l.term].log[..base + |es|]))
    ensures Follows(h, l, base, es)
  {
    hide Splice, Stored;
  }

  lemma SpliceFollows(h: History, cluster: set<NodeID>, l: Log, base: Index, baseTerm: Term, es: seq<Entry>)
    requires Splicing(h, cluster, l.entries, l.term, base, baseTerm, es)
    requires l.commitIndex <= |l.entries| && l.entries[..l.commitIndex] <= h.reigns[l.term].log
    ensures Follows(h, l, base, es)
  {
    hide Splicing, Splice, Follows, Stored, Contiguous, TermsAscend, CommandsAgree, Between, TermAt;
    SpliceFits(h, cluster, l.entries, l.term, base, baseTerm, es);
    StoredAgrees(h, cluster, l.entries, l.term, base, baseTerm, es);
    if es == [] {
      SpliceNothing(l);
      FollowsStored(h, l, base, es);
    } else {
      SpliceChecks(h, cluster, l, base, baseTerm, es);
      SpliceResult(l, es);
      if Stored(l.entries, es) < |es| {
        FollowsAfterConflict(h, cluster, l, base, baseTerm, es);
      } else {
        FollowsStored(h, l, base, es);
      }
    }
  }

  lemma SpliceFits(h: History, cluster: set<NodeID>, l: seq<Entry>, t: Term, base: Index, baseTerm: Term,
    es: seq<Entry>)
    requires Splicing(h, cluster, l, t, base, baseTerm, es)
    ensures t in h.reigns && base + |es| <= |h.reigns[t].log|
  {
    hide ReignsOk, LogOk;
  }

  lemma SpliceNothing(l: Log)
    ensures Splice(l, []) == Done(l) && Stored(l.entries, []) == 0
  {}

  lemma FollowsAfterConflict(h: History, cluster: set<NodeID>, l: Log, base: Index, baseTerm: Term, es: seq<Entry>)
    requires Splicing(h, cluster, l.entries, l.term, base, baseTerm, es) && Stored(l.entries, es) < |es|
    requires l.commitIndex <= |l.entries| && l.entries[..l.commitIndex] <= h.reigns[l.term].log
    requires var k := Stored(l.entries, es);
      es[k].index > l.commitIndex ==>
        Splice(l, es) == Done(l.(entries := Between(l.entries, 0, es[k].index - 1) + es[k..]))
    ensures Follows(h, l, base, es)
  {
    hide Splicing, Splice, Follows, Stored, Between;
    SpliceFits(h, cluster, l.entries, l.term, base, baseTerm, es);
    SharedBelowConflict(h, cluster, l.entries, l.term, base, baseTerm, es, l.entries[..l.commitIndex]);
    SpliceConflict(h, cluster, l.entries, l.term, base, baseTerm, es);
    FollowsConflict(h, l, base, es);
  }

  /** Whatever a follower shares with its leader survives the splice. */
  lemma SpliceKeeps(h: History, cluster: set<NodeID>, l: Log, base: Index, baseTerm: Term, es: seq<Entry>,
    s: seq<Entry>)
    requires Splicing(h, cluster, l.entries, l.term, base, baseTerm, es)
    requires l.commitIndex <= |l.entries| && l.entries[..l.commitIndex] <= h.reigns[l.term].log
    requires s <= l.entries && s <= h.reigns[l.term].log
    ensures Splice(l, es).Done? && s <= Splice(l, es).log.entries
  {
    SpliceFollows(h, cluster, l, base, baseTerm, es);
    SharedBelowConflict(h, cluster, l.entries, l.term, base, baseTerm, es, s);
    hide Splicing, Splice, Stored;
    var log := h.reigns[l.term].log;
    var r := Splice(l, es).log.entries;
    if r != l.entries {
      assert s == log[..|s|] == log[..base + |es|][..|s|];
    }
  }

  /** What a node has acknowledged survives a splice, or its leader lacks it. */
  lemma SpliceRetains(h: History, cluster: set<NodeID>, id: NodeID, l: Log, base: Index, baseTerm: Term, es: seq<Entry>)
    requires Splicing(h, cluster, l.entries, l.term, base, baseTerm, es)
    requires l.commitIndex <= |l.entries| && l.entries[..l.commitIndex] <= h.reigns[l.term].log
    requires AcksKept(h, id, l.entries, l.term)
    ensures Splice(l, es).Done? && AcksKept(h, id, Splice(l, es).log.entries, l.term)
  {
    SpliceFollows(h, cluster, l, base, baseTerm, es);
    var t := l.term;
    assert ReignShape(h.reigns[t], t);
    hide ReignsOk, LogOk, Splice, Stored;
    var l' := Splice(l, es).log.entries;
    var bound := t + 1;
    forall u: Term, k: Index | u < bound && (u, id) in h.acks && k <= h.acks[(u, id)]
      ensures Retained(h, l', u, k, bound) {
      assert Retained(h, l.entries, u, k, bound);
      var x := h.reigns[u].log[..k];
      if x <= l.entries && (u == t || x <= h.reigns[t].base) {
        SpliceKeeps(h, cluster, l, base, baseTerm, es, x);
      }
    }
  }

  /** Committed and applied entries survive a splice. */
  lemma SpliceKeepsCommits(h: History, cluster: set<NodeID>, l: Log, applied: seq<Entry>, base: Index, baseTerm: Term,
    es: seq<Entry>)
    requires HistoryOk(h, cluster) && CommitsKept(h, l, applied)
    requires Splicing(h, cluster, l.entries, l.term, base, baseTerm, es)
    ensures l.entries[..l.commitIndex] <= h.reigns[l.term].log
    ensures Splice(l, es).Done? && CommitsKept(h, Splice(l, es).log, applied)
  {
    hide ReignsOk, LogOk, Splice, Stored, BallotsOk, AcksOk, CommitsOk, ArrivalsOk, Committed;
    var c := l.entries[..l.commitIndex];
    CommittedInReign(h, cluster, c, l.term);
    CommittedInReign(h, cluster, applied, l.term);
    SpliceFollows(h, cluster, l, base, baseTerm, es);
    SpliceKeeps(h, cluster, l, base, baseTerm, es, c);
    SpliceKeeps(h, cluster, l, base, baseTerm, es, applied);
    var l' := Splice(l, es).log.entries;
    assert l'[..l.commitIndex] == c;
    if l.commitIndex > 0 {
      assert c[l.commitIndex - 1] == l.entries[l.commitIndex - 1] == l'[l.commitIndex - 1];
    }
  }

  /** A prefix of a reign's log is a fine log for a node of that term. */
  lemma ReignEntries(h: History, cluster: set<NodeID>, t: Term, k: nat)
    requires ReignsOk(h, cluster) && t in h.reigns && k <= |h.reigns[t].log|
    ensures EntriesOk(h, h.reigns[t].log[..k], t)
  {
    assert ReignShape(h.reigns[t], t);
    PrefixOk(h, h.reigns[t].log, k);
  }

  lemma SpliceNodeOk(h: History, cluster: set<NodeID>, n: Node, base: Index, baseTerm: Term, es: seq<Entry>)
    requires HistoryOk(h, cluster) && NodeOk(h, cluster, n) && n.role.Follower?
    requires Splicing(h, cluster, n.log.entries, n.log.term, base, baseTerm, es)
    ensures Splice(n.log, es).Done?
    ensures var r := Splice(n.log, es).log;
      && r == n.log.(entries := r.entries)
      && h.reigns[n.log.term].log[..base + |es|] <= r.entries
      && NodeOk(h, cluster, n.(log := r))
  {
    hide ReignsOk, LogOk, Splice, Stored, BallotsOk, AcksOk, CommitsOk, ArrivalsOk, Committed, AcksKept, VoteMatches,
      TermCurrent;
    SpliceKeepsCommits(h, cluster, n.log, n.applied, base, baseTerm, es);
    SpliceFollows(h, cluster, n.log, base, baseTerm, es);
    SpliceRetains(h, cluster, n.id, n.log, base, baseTerm, es);
    ReignEntries(h, cluster, n.log.term, base + |es|);
  }

  lemma AppendAccepted(cluster: set<NodeID>, now: Moment, h: History, n: Node, from: NodeID, base: Index,
    baseTerm: Term, es: seq<Entry>)
    requires HistoryOk(h, cluster) && NodeOk(h, cluster, n) && n.role.Follower?
    requires Splicing(h, cluster, n.log.entries, n.log.term, base, baseTerm, es)
    requires h.reigns[n.log.term].leader == from && from != n.id && n.role.leader.Some?
    ensures Good(cluster, now, h, Ack(h, n.log.term, n.id, base + |es|), n.id, OnAppend(n, from, base, baseTerm, es))
  {
    hide ReignsOk, LogOk, Contiguous, TermsAscend, Splice, Stored, HistoryOk, DurableOk, Grows, ActedOnly, ArrivalsNow;
    AppendShape(h, cluster, n.log.term, base, baseTerm, es);
    SpliceNodeOk(h, cluster, n, base, baseTerm, es);
    var o := OnAppend(n, from, base, baseTerm, es);
    AckGood(cluster, now, h, o.node, base + |es|);
    NodeInCluster(h, cluster, n);
  }

  lemma OnAppendGood(cluster: set<NodeID>, now: Moment, h: History, n: Node, e: Envelope) returns (h': History)
    requires HistoryOk(h, cluster) && NodeOk(h, cluster, n) && n.role.Follower? && n.role.leader.Some?
    requires MailOk(h, cluster, e) && e.to == n.id && e.term == n.log.term && e.message.Append?
    ensures var m := e.message;
      Good(cluster, now, h, h', n.id, OnAppend(n, e.from, m.baseIndex, m.baseTerm, m.entries))
  {
    hide LogOk, Splice, Stored, BallotsOk, AcksOk, CommitsOk, ArrivalsOk, AcksKept, CommitsKept, VoteMatches,
      TermCurrent, Grows, ActedOnly, ArrivalsNow;
    var m := e.message;
    if m.baseIndex == 0 || Has(n.log.entries, m.baseIndex, m.baseTerm) {
      AppendAccepted(cluster, now, h, n, e.from, m.baseIndex, m.baseTerm, m.entries);
      h' := Ack(h, n.log.term, n.id, m.baseIndex + |m.entries|);
    } else {
      h' := h;
      GoodStill(cluster, now, h, OnAppend(n, e.from, m.baseIndex, m.baseTerm, m.entries));
    }
  }

  // ---------------------------------------------------------------- votes

  /** Recording a vote changes nothing else about the voter. */
  lemma VotedNodeOk(h: History, h': History, cluster: set<NodeID>, n: Node, n': Node)
    requires Grows(h, h') && DurableOk(h, cluster, n)
    requires h' == h.(ballots := h'.ballots)
    requires n' == n.(log := n.log.(vote := n'.log.vote), role := n'.role)
    requires VoteMatches(h', n.id, n.log.term, n'.log.vote)
    ensures DurableOk(h', cluster, n')
  {
    hide VoteMatches;
    LogGrows(h, h', n.log.entries);
    AcksRetainedGrow(h, h', n.log.entries, n.id, n.log.term + 1, n.log.term + 1);
    CommitsKeptGrow(h, h', n.log, n.applied);
    CommittedGrows(h', h', n.log.entries[..n.log.commitIndex], n.log.term, n.log.term);
  }

  /** With no leader elected in a term yet, acknowledgements are retained up to it. */
  lemma RetainedBeforeElection(h: History, id: NodeID, l: seq<Entry>, t: Term)
    requires AcksKept(h, id, l, t) && t !in h.reigns
    ensures AcksRetained(h, l, id, t, t)
  {
    var bound := t + 1;
    forall u: Term, k: Index | u < t && (u, id) in h.acks && k <= h.acks[(u, id)] ensures Retained(h, l, u, k, t) {
      assert Retained(h, l, u, k, bound);
    }
  }

  /** A voter that has not voted in a term is not among the electors of its leader. */
  lemma NotElector(h: History, cluster: set<NodeID>, t: Term, p: NodeID)
    requires ReignsOk(h, cluster) && (t, p) !in h.ballots
    ensures t in h.reigns ==> p !in h.reigns[t].quorum
  {
    if t in h.reigns { assert Elected(h, cluster, t); }
  }

  lemma OnCampaignGood(cluster: set<NodeID>, now: Moment, h: History, n: Node, e: Envelope) returns (h': History)
    requires HistoryOk(h, cluster) && NodeOk(h, cluster, n) && n.role.Follower?
    requires MailOk(h, cluster, e) && e.to == n.id && e.term == n.log.term && e.message.Campaign?
    ensures Good(cluster, now, h, h', n.id, OnCampaign(n, e.from, e.message.lastIndex, e.message.lastTerm))
  {
    hide ReignsOk, LogOk, BallotsOk, AcksOk, CommitsOk, ArrivalsOk, AcksRetained, CommitsKept, TermCurrent;
    var t := n.log.term;
    var o := OnCampaign(n, e.from, e.message.lastIndex, e.message.lastTerm);
    if n.log.vote.None? && !Newer(n.log.entries, e.message.lastIndex, e.message.lastTerm) {
      NotElector(h, cluster, t, n.id);
      if t !in h.reigns { RetainedBeforeElection(h, n.id, n.log.entries, t); }
      h' := Vote(h, t, n.id, e.from, n.log.entries);
      VoteOk(h, cluster, t, n.id, e.from, n.log.entries);
      VotedNodeOk(h, h', cluster, n, o.node);
    } else {
      h' := h;
      GoodStill(cluster, now, h, o);
    }
  }

  lemma HoldElectionGood(cluster: set<NodeID>, now: Moment, h: History, n: Node) returns (h': History)
    requires HistoryOk(h, cluster) && DurableOk(h, cluster, n)
    ensures var o := HoldElection(n);
      && Good(cluster, now, h, h', n.id, o)
      && o.node.role == Candidate({n.id}) && o.node.log.term == n.log.term + 1
      && o.node.peers == n.peers && h'.commits == h.commits
  {
    hide ReignsOk, LogOk, BallotsOk, AcksOk, CommitsOk, ArrivalsOk, AcksRetained, CommitsKept;
    var t := n.log.term + 1;
    var o := HoldElection(n);
    var voteless := n.(log := n.log.(term := t, vote := None), role := Follower(None, {}));
    LaterTerm(h, cluster, n, voteless);
    NotElector(h, cluster, t, n.id);
    h' := Vote(h, t, n.id, n.id, n.log.entries);
    VoteOk(h, cluster, t, n.id, n.id, n.log.entries);
    VotedNodeOk(h, h', cluster, voteless, o.node);
  }

  lemma BecomeCandidateGood(cluster: set<NodeID>, now: Moment, h: History, n: Node) returns (h': History)
    requires HistoryOk(h, cluster) && DurableOk(h, cluster, n) && n.role.Follower?
    ensures var o := BecomeCandidate(n);
      && Good(cluster, now, h, h', n.id, o)
      && o.node.role == Candidate({n.id}) && o.node.peers == n.peers && h'.commits == h.commits
  {
    assert n.id in cluster;
    hide HistoryOk, DurableOk, RoleOk, MailOk, Grows, ActedOnly, ArrivalsNow;
    ApplyKeeps(h, cluster, n);
    h' := HoldElectionGood(cluster, now, h, MaybeApply(n));
    AbortsOk(h', cluster, n);
  }

  lemma NodeInCluster(h: History, cluster: set<NodeID>, n: Node)
    requires NodeOk(h, cluster, n)
    ensures n.id in cluster
  {}

  // ---------------------------------------------------------------- the follower's step

  lemma StepFollowerGood(cluster: set<NodeID>, now: Moment, h: History, n: Node, e: Envelope) returns (h': History)
    requires HistoryOk(h, cluster) && NodeOk(h, cluster, n) && n.role.Follower?
    requires MailOk(h, cluster, e) && e.to == n.id && e.term == n.log.term
    requires e.from != e.to || e.message.ClientRequest?
    ensures Good(cluster, now, h, h', n.id, StepFollower(n, e))
  {
    hide HistoryOk, NodeOk, Good, HearLeader, OnHeartbeat, OnAppend, OnCampaign, HeartbeatOk, AppendOk, AnswerOk;
    if e.message.Heartbeat? || e.message.Append? || e.message.Read? {
      h' := LeaderMessageGood(cluster, now, h, n, e);
    } else if e.message.Campaign? {
      h' := OnCampaignGood(cluster, now, h, n, e);
    } else if e.message.ClientRequest? || e.message.ClientResponse? {
      h' := h;
      FollowerClientGood(cluster, now, h, n, e);
    } else {
      h' := h;
      FollowerResponseGood(cluster, now, h, n, e);
    }
  }

  /** A follower hears from its leader. */
  lemma LeaderMessageGood(cluster: set<NodeID>, now: Moment, h: History, n: Node, e: Envelope) returns (h': History)
    requires HistoryOk(h, cluster) && NodeOk(h, cluster, n) && n.role.Follower?
    requires MailOk(h, cluster, e) && e.to == n.id && e.term == n.log.term
    requires e.message.Heartbeat? || e.message.Append? || e.message.Read?
    ensures Good(cluster, now, h, h', n.id, StepFollower(n, e))
  {
    hide ReignsOk, BallotsOk, AcksOk, CommitsOk, ArrivalsOk, DurableOk, RoleOk, Grows, ActedOnly, ArrivalsNow,
      HearLeader, OnHeartbeat, OnAppend, AppendOk;
    var h1 := HearLeaderGood(cluster, now, h, n, e);
    var o := HearLeader(n, e.from);
    match e.message {
      case Heartbeat(lastIndex, commitIndex, readSeq) =>
        h' := OnHeartbeatGood(cluster, now, h1, o.node, e);
        GoodJoin(cluster, now, h, h1, h', n.id, o, OnHeartbeat(o.node, e.from, lastIndex, commitIndex, readSeq));
      case Append(baseIndex, baseTerm, entries) =>
        AppendShape(h, cluster, e.term, baseIndex, baseTerm, entries);
        h' := OnAppendGood(cluster, now, h1, o.node, e);
        GoodJoin(cluster, now, h, h1, h', n.id, o, OnAppend(o.node, e.from, baseIndex, baseTerm, entries));
      case Read(readSeq) =>
        h' := h1;
        var reply := ReadReplyGood(cluster, now, h1, o.node, e);
        GoodJoin(cluster, now, h, h1, h1, n.id, o, reply);
    }
  }

  lemma ReadReplyGood(cluster: set<NodeID>, now: Moment, h: History, n: Node, e: Envelope) returns (reply: Out)
    requires HistoryOk(h, cluster) && NodeOk(h, cluster, n)
    requires MailOk(h, cluster, e) && e.to == n.id && e.term == n.log.term && e.message.Read?
    ensures reply == Out(n, {Mail(n, e.from, ReadResponse(e.message.readSeq))})
    ensures Good(cluster, now, h, h, n.id, reply)
  {
    hide ReignsOk, BallotsOk, AcksOk, CommitsOk, ArrivalsOk, RoleOk, EntriesOk, VoteMatches, AcksKept, CommitsKept,
      TermCurrent;
    ConfirmsNow(h, cluster, n.id, n.log.term, e.message.readSeq);
    reply := Out(n, {Mail(n, e.from, ReadResponse(e.message.readSeq))});
    GoodStill(cluster, now, h, reply);
  }

  lemma RoleIrrelevant(h: History, cluster: set<NodeID>, n: Node, n': Node)
    requires DurableOk(h, cluster, n) && n' == n.(role := n'.role)
    ensures DurableOk(h, cluster, n')
  {}

  /** A node may only halt in a term in which it has restarted. */
  lemma HaltGood(cluster: set<NodeID>, now: Moment, h: History, n: Node, p: Panic)
    requires HistoryOk(h, cluster) && NodeOk(h, cluster, n) && ReachablePanic(p)
    requires (n.log.term, n.id) in h.restarts
    ensures Good(cluster, now, h, h, n.id, Halt(n, p))
  {
    hide HistoryOk, DurableOk, MailOk;
    RoleIrrelevant(h, cluster, n, Halt(n, p).node);
    GoodStill(cluster, now, h, Halt(n, p));
  }

  /** A node that led its term, and is not its leader now, restarted. */
  lemma LedAndRestarted(h: History, cluster: set<NodeID>, n: Node)
    requires HistoryOk(h, cluster) && NodeOk(h, cluster, n) && n.role.Follower?
    requires n.log.term in h.reigns && h.reigns[n.log.term].leader == n.id
    ensures (n.log.term, n.id) in h.restarts
  {
    hide ReignsOk, BallotsOk, CommitsOk, ArrivalsOk, DurableOk;
  }

  /** A response meant for the leader of the term, which this node was before it restarted. */
  lemma FollowerResponseGood(cluster: set<NodeID>, now: Moment, h: History, n: Node, e: Envelope)
    requires HistoryOk(h, cluster) && NodeOk(h, cluster, n) && n.role.Follower?
    requires MailOk(h, cluster, e) && e.to == n.id && e.term == n.log.term
    requires e.message.CampaignResponse? || e.message.HeartbeatResponse? || e.message.AppendResponse?
      || e.message.ReadResponse?
    ensures Good(cluster, now, h, h, n.id, StepFollower(n, e))
  {
    hide HistoryOk, NodeOk, Good, Acked, Confirmed;
    if e.message.CampaignResponse? {
      QuietGood(cluster, now, h, n);
    } else {
      LedAndRestarted(h, cluster, n);
      HaltGood(cluster, now, h, n, UnexpectedMessage);
    }
  }

  lemma QuietGood(cluster: set<NodeID>, now: Moment, h: History, n: Node)
    requires HistoryOk(h, cluster) && NodeOk(h, cluster, n)
    ensures Good(cluster, now, h, h, n.id, Quiet(n))
  {
    hide HistoryOk, NodeOk, MailOk;
    GoodStill(cluster, now, h, Quiet(n));
  }

  /** A client's request, or the answer to a forwarded one. */
  lemma FollowerClientGood(cluster: set<NodeID>, now: Moment, h: History, n: Node, e: Envelope)
    requires HistoryOk(h, cluster) && NodeOk(h, cluster, n) && n.role.Follower?
    requires MailOk(h, cluster, e) && e.to == n.id && e.term == n.log.term
    requires e.from != e.to || e.message.ClientRequest?
    requires e.message.ClientRequest? || e.message.ClientResponse?
    ensures Good(cluster, now, h, h, n.id, StepFollower(n, e))
  {
    hide HistoryOk, DurableOk, AnswerOk;
    NodeInCluster(h, cluster, n);
    var o := StepFollower(n, e);
    if e.message.ClientRequest? && e.from != n.id {
      LedAndRestarted(h, cluster, n);
    }
    RoleIrrelevant(h, cluster, n, o.node);
    GoodStill(cluster, now, h, o);
  }
}
