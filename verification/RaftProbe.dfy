/** Replication to one follower (src/raft/node.rs), as an exchange between the two nodes. */
module RaftProbe {
  import opened Common
  import opened RaftLog
  import opened RaftNode
  import opened RaftHistory
  import opened RaftGrowth
  import opened RaftInvariant
  import opened RaftFollower
  import opened RaftLeader
  import opened RaftStep
  import opened RaftCluster

  // The leader sends an append, the follower accepts or rejects it, and the leader answers with the next append.
  // Rejections move the next index back until an append's base entry is one the follower has; from there on each
  // append advances the match index, up to the end of the leader's log.

  /** The follower's log has the leader's entry at this index; index 0 always agrees. */
  predicate Agrees(leader: seq<Entry>, follower: seq<Entry>, index: Index) {
    index == 0 || (index <= |leader| && Has(follower, index, leader[index - 1].term))
  }

  /** A leader, a follower, and the append in flight between them. */
  datatype Exchange = Exchange(leader: Node, follower: Node, message: Option<Message>)

  ghost function AppendSent(sent: set<Envelope>): (m: Option<Message>)
    ensures m.Some? ==> m.value.Append?
  {
    if exists e :: e in sent && e.message.Append? then var e :| e in sent && e.message.Append?;
      Some(e.message) else None
  }

  ghost function ResponseSent(sent: set<Envelope>): (m: Option<Message>)
    ensures m.Some? ==> m.value.AppendResponse?
  {
    if exists e :: e in sent && e.message.AppendResponse? then
      var e :| e in sent && e.message.AppendResponse?; Some(e.message)
    else None
  }

  /** The follower takes the append in flight, and the leader its response. */
  ghost function Round(x: Exchange): Exchange {
    if !x.leader.role.Leader? || x.message.None? || !x.message.value.Append? then x
    else
      var m := x.message.value;
      var o := OnAppend(x.follower, x.leader.id, m.baseIndex, m.baseTerm, m.entries);
      var response := ResponseSent(o.sent);
      if response.None? then Exchange(x.leader, o.node, None)
      else
        var o' := OnAppendResponse(x.leader, x.follower.id, response.value.matchIndex, response.value.rejectIndex);
        Exchange(o'.node, o.node, AppendSent(o'.sent))
  }

  ghost function Rounds(x: Exchange, k: nat): Exchange
    decreases k
  {
    if k == 0 then x else Rounds(Round(x), k - 1)
  }

  /** The progress of the follower, as the leader sees it. */
  function Tracked(x: Exchange): Progress
    requires x.leader.role.Leader? && x.follower.id in x.leader.role.progress
  {
    x.leader.role.progress[x.follower.id]
  }

  /** The append in flight is the last one sent, and has something to tell the leader. */
  ghost predicate InFlight(x: Exchange) {
    && x.leader.role.Leader? && x.leader.maxAppend >= 1 && Indexed(x.leader.log.entries)
    && x.follower.id in x.leader.role.progress
    && ProgressValid(Tracked(x), |x.leader.log.entries|)
    && Agrees(x.leader.log.entries, x.follower.log.entries, Tracked(x).matchIndex)
    && x.message.Some? && x.message.value.Append?
    && var m := x.message.value;
       && AppendFits(x.leader.log.entries, m.baseIndex, m.baseTerm, m.entries)
       && Tracked(x).matchIndex <= m.baseIndex
       && Tracked(x).matchIndex < m.baseIndex + |m.entries| == Tracked(x).nextIndex - 1
  }

  // ---------------------------------------------------------------- rejections

  /** The reject index a follower answers with, lowered to skip entries it does not have. */
  function RejectIndex(follower: seq<Entry>, base: Index): Index {
    if base <= |follower| + 1 then base else |follower| + 1
  }

  lemma TheResponse(sent: set<Envelope>, e: Envelope)
    requires sent == {e} && e.message.AppendResponse?
    ensures ResponseSent(sent) == Some(e.message)
  {}

  lemma TheAppend(sent: set<Envelope>, e: Envelope)
    requires e in sent && e.message.Append? && forall d :: d in sent && d.message.Append? ==> d == e
    ensures AppendSent(sent) == Some(e.message)
  {}

  /** A follower rejects an append exactly if it does not have its base entry; it is then unchanged. */
  lemma FollowerRejectsIff(f: Node, leader: seq<Entry>, from: NodeID, base: Index, es: seq<Entry>)
    requires base <= |leader|
    ensures var o := OnAppend(f, from, base, TermAt(leader, base), es);
      var response := ResponseSent(o.sent);
      if Agrees(leader, f.log.entries, base) then response.Some? ==> response.value.rejectIndex == 0
      else o.node == f && response == Some(AppendResponse(0, RejectIndex(f.log.entries, base)))
  {
    hide Splice;
    var o := OnAppend(f, from, base, TermAt(leader, base), es);
    if o.sent != {} {
      var e :| e in o.sent;
      TheResponse(o.sent, e);
    }
  }

  /**
   * A rejection that is not stale moves the next index back to it, never to or below the match index. With the
   * append in flight the last one sent, no rejection of it is stale.
   */
  lemma RejectionLowers(leader: seq<Entry>, follower: seq<Entry>, p: Progress, base: Index)
    requires ProgressValid(p, |leader|) && Agrees(leader, follower, p.matchIndex)
    requires p.matchIndex <= base <= |leader| && !Agrees(leader, follower, base)
    ensures var r := RejectIndex(follower, base);
      && p.matchIndex < r <= base
      && (forall i :: r <= i <= base ==> !Agrees(leader, follower, i))
      && var p' := RegressNext(p, r);
         && ProgressValid(p', |leader|) && p'.matchIndex == p.matchIndex
         && (r < p.nextIndex ==> p'.nextIndex == r) && (r >= p.nextIndex ==> p' == p)
  {}

  /** What the leader does with a rejection: it probes the entry before, or sends the entries after the match index. */
  lemma LeaderProbes(n: Node, from: NodeID, r: Index)
    requires n.role.Leader? && from in n.role.progress && n.maxAppend >= 1
    requires var p := n.role.progress[from];
      ProgressValid(p, |n.log.entries|) && p.matchIndex < r < p.nextIndex && r <= |n.log.entries|
    ensures var p := n.role.progress[from];
      var es := if r > p.matchIndex + 1 then [] else Between(n.log.entries, r - 1, r - 1 + n.maxAppend);
      OnAppendResponse(n, from, 0, r)
      == Out(WithProgress(n, from, p.(nextIndex := if es == [] then r else es[|es| - 1].index + 1)),
             {Mail(n, from, Append(r - 1, TermAt(n.log.entries, r - 1), es))})
  {
    hide ConfirmMatch, Between, TermAt;
    var p := n.role.progress[from];
    var p' := RegressNext(p, r);
    var n' := WithProgress(n, from, p');
    var plan := PlanAppend(n.log.entries, p', true, n.maxAppend);
    assert OnAppendResponse(n, from, 0, r) == SendAppend(n', from, true);
    assert n.role.progress[from := p'][from := plan.progress] == n.role.progress[from := plan.progress];
  }

  /** A stale rejection, of an entry known to match or already sent again, changes nothing and sends nothing. */
  lemma StaleIgnored(n: Node, from: NodeID, r: Index)
    requires n.role.Leader? && from in n.role.progress && 0 < r <= |n.log.entries|
    requires ProgressValid(n.role.progress[from], |n.log.entries|)
    ensures var p := n.role.progress[from];
      r <= p.matchIndex || r >= p.nextIndex ==> OnAppendResponse(n, from, 0, r) == Quiet(n)
  {
    hide Probe;
  }

  /** The append that follows a rejection at `r`. */
  function Retry(x: Exchange, r: Index): Exchange
    requires x.leader.role.Leader? && x.follower.id in x.leader.role.progress && r >= 1
  {
    var p, log := Tracked(x), x.leader.log.entries;
    var es := if r > p.matchIndex + 1 then [] else Between(log, r - 1, r - 1 + x.leader.maxAppend);
    Exchange(
      WithProgress(x.leader, x.follower.id, p.(nextIndex := if es == [] then r else es[|es| - 1].index + 1)),
      x.follower,
      Some(Append(r - 1, TermAt(log, r - 1), es)))
  }

  lemma RetriedRound(x: Exchange, r: Index)
    requires InFlight(x) && !Agrees(x.leader.log.entries, x.follower.log.entries, x.message.value.baseIndex)
    requires r == RejectIndex(x.follower.log.entries, x.message.value.baseIndex) && Tracked(x).matchIndex < r
    ensures Round(x) == Retry(x, r)
  {
    hide OnAppend, OnAppendResponse, ResponseSent, AppendSent, Indexed, TermAt, Between, Agrees;
    var m, log := x.message.value, x.leader.log.entries;
    FollowerRejectsIff(x.follower, log, x.leader.id, m.baseIndex, m.entries);
    LeaderProbes(x.leader, x.follower.id, r);
    var e := Mail(x.leader, x.follower.id, Retry(x, r).message.value);
    TheAppend({e}, e);
  }

  lemma RetryInFlight(x: Exchange, r: Index)
    requires InFlight(x) && Tracked(x).matchIndex < r <= x.message.value.baseIndex
    ensures InFlight(Retry(x, r))
  {
    hide Indexed, TermAt, Between, Agrees;
    var y, log := Retry(x, r), x.leader.log.entries;
    if r == Tracked(x).matchIndex + 1 {
      BatchEnds(log, r - 1, x.leader.maxAppend);
    } else {
      assert [] == log[r - 1..r - 1];
    }
  }

  /** A rejected append is followed by one at an earlier base, with no agreeing index skipped. */
  lemma RejectedRound(x: Exchange)
    requires InFlight(x) && !Agrees(x.leader.log.entries, x.follower.log.entries, x.message.value.baseIndex)
    ensures var y := Round(x);
      && InFlight(y) && y.follower == x.follower && y.leader.log == x.leader.log && y.leader.id == x.leader.id
      && Tracked(y).matchIndex == Tracked(x).matchIndex
      && y.message.value.baseIndex < x.message.value.baseIndex
      && forall i :: y.message.value.baseIndex < i <= x.message.value.baseIndex ==>
           !Agrees(x.leader.log.entries, x.follower.log.entries, i)
  {
    hide Round, Indexed, TermAt, Between, AppendFits, Agrees;
    var m, log := x.message.value, x.leader.log.entries;
    var r := RejectIndex(x.follower.log.entries, m.baseIndex);
    assert m.baseIndex <= |log| by { FitsLog(log, m); }
    RejectionLowers(log, x.follower.log.entries, Tracked(x), m.baseIndex);
    RetriedRound(x, r);
    RetryInFlight(x, r);
  }

  lemma FitsLog(log: seq<Entry>, m: Message)
    requires m.Append? && AppendFits(log, m.baseIndex, m.baseTerm, m.entries)
    ensures m.baseIndex + |m.entries| <= |log|
  {}

  /**
   * Probing ends: after finitely many rejections, which change neither log, the append in flight has its base at the
   * greatest agreeing index not above the base of the first one.
   */
  lemma {:induction false} ProbingFindsGreatest(x: Exchange) returns (k: nat)
    requires InFlight(x)
    ensures var y := Rounds(x, k);
      && InFlight(y) && y.follower == x.follower && y.leader.log == x.leader.log && y.leader.id == x.leader.id
      && var base := y.message.value.baseIndex;
         && base + k <= x.message.value.baseIndex
         && Agrees(x.leader.log.entries, x.follower.log.entries, base)
         && forall i :: base < i <= x.message.value.baseIndex ==>
              !Agrees(x.leader.log.entries, x.follower.log.entries, i)
    decreases x.message.value.baseIndex
  {
    hide InFlight, Round, Agrees;
    assert x.message.Some? && x.message.value.Append? by { FlightShape(x); }
    if Agrees(x.leader.log.entries, x.follower.log.entries, x.message.value.baseIndex) {
      k := 0;
    } else {
      RejectedRound(x);
      assert Round(x).message.Some? && Round(x).message.value.Append? by { FlightShape(Round(x)); }
      k := ProbingFindsGreatest(Round(x));
      k := k + 1;
    }
  }

  lemma FlightShape(x: Exchange)
    requires InFlight(x)
    ensures x.message.Some? && x.message.value.Append?
    ensures x.leader.role.Leader? && x.follower.id in x.leader.role.progress
  {}

  // ---------------------------------------------------------------- the whole log

  /** The exchange takes place in a state of a cluster, in the leader's term. */
  ghost predicate Syncing(h: History, ids: set<NodeID>, x: Exchange) {
    && HistoryOk(h, ids) && NodeOk(h, ids, x.leader) && NodeOk(h, ids, x.follower)
    && x.leader.id != x.follower.id && x.leader.log.term == x.follower.log.term
    && x.follower.role.Follower? && x.follower.role.leader == Some(x.leader.id)
    && InFlight(x)
  }

  lemma FlightMail(h: History, ids: set<NodeID>, x: Exchange)
    requires Syncing(h, ids, x)
    ensures x.message.Some? && MailOk(h, ids, Mail(x.leader, x.follower.id, x.message.value))
  {
    hide HistoryOk, PeerOk, PendingOk, AcksKept, CommitsKept, TermCurrent, EntriesOk, VoteMatches, Agrees, Indexed;
  }

  /** The other node is not disturbed by what one node did. */
  lemma OtherKept(h: History, h': History, ids: set<NodeID>, now: Moment, n: Node, o: Out, other: Node)
    requires Good(ids, now, h, h', n.id, o) && NodeOk(h, ids, other) && other.id != n.id
    requires other.id in now.terms && now.terms[other.id] == other.log.term
    ensures NodeOk(h', ids, other)
  {
    hide HistoryOk, DurableOk, RoleOk, Grows, ActedOnly, ArrivalsNow, MailOk;
    DurableGrows(h, h', ids, other, n.id, now);
    RoleGrows(h, h', ids, other, n.id);
  }

  /** An accepted append: the follower has the leader's log up to its end, and says so. */
  lemma AcceptedAppend(h: History, ids: set<NodeID>, x: Exchange) returns (h': History)
    requires Syncing(h, ids, x) && Agrees(x.leader.log.entries, x.follower.log.entries, x.message.value.baseIndex)
    ensures var m := x.message.value; var o := OnAppend(x.follower, x.leader.id, m.baseIndex, m.baseTerm, m.entries);
      && ResponseSent(o.sent) == Some(AppendResponse(m.baseIndex + |m.entries|, 0))
      && HistoryOk(h', ids) && NodeOk(h', ids, x.leader) && NodeOk(h', ids, o.node)
      && o.node.id == x.follower.id && o.node.log.term == x.follower.log.term && o.node.role == x.follower.role
      && Acked(h', x.leader.log.term, x.follower.id, m.baseIndex + |m.entries|)
  {
    hide HistoryOk, NodeOk, OnAppend, ResponseSent, InFlight, Agrees, Grows, ActedOnly, ArrivalsNow, CommitsNow;
    hide ToLeader;
    FlightMail(h, ids, x);
    FlightShape(x);
    var m, f, n := x.message.value, x.follower, x.leader;
    var e := Mail(n, f.id, m);
    var now := Moment(0, map[n.id := n.log.term, f.id := f.log.term], h.commits, None, false);
    h' := OnAppendGood(ids, now, h, f, e);
    var o := OnAppend(f, n.id, m.baseIndex, m.baseTerm, m.entries);
    OtherKept(h, h', ids, now, f, o, n);
    AcceptedShape(h, ids, x);
    var response := Mail(o.node, n.id, AppendResponse(m.baseIndex + |m.entries|, 0));
    TheResponse(o.sent, response);
    assert MailOk(h', ids, response);
  }

  lemma AcceptedShape(h: History, ids: set<NodeID>, x: Exchange)
    requires Syncing(h, ids, x) && Agrees(x.leader.log.entries, x.follower.log.entries, x.message.value.baseIndex)
    ensures var m := x.message.value; var o := OnAppend(x.follower, x.leader.id, m.baseIndex, m.baseTerm, m.entries);
      && o.node == x.follower.(log := o.node.log) && o.node.log == x.follower.log.(entries := o.node.log.entries)
      && o.sent == {Mail(o.node, x.leader.id, AppendResponse(m.baseIndex + |m.entries|, 0))}
  {
    hide HistoryOk, Splice, PeerOk, PendingOk, AcksKept, CommitsKept, TermCurrent, VoteMatches, LogOk;
    var m, f := x.message.value, x.follower;
    SplicingNow(h, ids, x);
    SpliceNodeOk(h, ids, f, m.baseIndex, m.baseTerm, m.entries);
  }

  /** Committing and serving reads leaves the log's entries and the peers' progress alone, and sends no append. */
  lemma CommitSame(n: Node)
    requires n.role.Leader? && TableFits(n)
    requires QuorumSize(n) <= |MatchTable(n)| ==> QuorumValue(MatchTable(n), QuorumSize(n)) <= |n.log.entries|
    ensures var o := MaybeCommit(n);
      && o.node.role.Leader? && o.node.role.progress == n.role.progress
      && o.node.log.entries == n.log.entries && o.node.log.term == n.log.term
      && o.node.id == n.id && o.node.maxAppend == n.maxAppend
      && forall e :: e in o.sent ==> !e.message.Append?
  {
    hide MaybeCommit, MaybeRead, ApplyAndAnswer, QuorumValue, MatchTable, QuorumSize;
    CommitMeans(n);
    if QuorumValue(MatchTable(n), QuorumSize(n)) > n.log.commitIndex {
      var index := QuorumValue(MatchTable(n), QuorumSize(n));
      var committed := n.(log := n.log.(commitIndex := index, commitTerm := n.log.entries[index - 1].term));
      AppliedSame(committed);
      ReadSame(ApplyAndAnswer(committed).node);
    }
  }

  lemma AppliedSame(n: Node)
    requires n.role.Leader?
    ensures var o := ApplyAndAnswer(n);
      && o.node.role.Leader? && o.node == n.(applied := o.node.applied, role := n.role.(writes := o.node.role.writes))
      && forall e :: e in o.sent ==> !e.message.Append?
  {}

  lemma ReadSame(n: Node)
    requires n.role.Leader? && TableFits(n)
    ensures var o := MaybeRead(n);
      && o.node.role.Leader? && o.node == n.(role := n.role.(queue := o.node.role.queue))
      && forall e :: e in o.sent ==> !e.message.Append?
  {
    hide MaybeRead, QuorumValue, ReadyReads, ReadTable, QuorumSize;
    ReadsMean(n);
  }

  /** The progress after the follower accepted the append in flight. */
  function Advanced(x: Exchange): Progress
    requires InFlight(x)
  {
    var m := x.message.value;
    Progress(m.baseIndex + |m.entries|, m.baseIndex + |m.entries| + 1, Tracked(x).readSeq)
  }

  lemma AdvancedMatch(x: Exchange, h: History, ids: set<NodeID>)
    requires InFlight(x) && NodeOk(h, ids, x.leader)
    requires Acked(h, x.leader.log.term, x.follower.id, Advanced(x).matchIndex)
    requires x.follower.id in x.leader.peers
    ensures var n1 := WithProgress(x.leader, x.follower.id, Advanced(x));
      var o := ConfirmMatch(x.leader, x.follower.id, Advanced(x).matchIndex);
      && o.node.role.Leader? && o.node.role.progress == n1.role.progress
      && o.node.log.entries == x.leader.log.entries && o.node.log.term == x.leader.log.term
      && o.node.id == x.leader.id && o.node.maxAppend == x.leader.maxAppend
      && forall e :: e in o.sent ==> !e.message.Append?
  {
    hide DurableOk, PendingOk, Confirmed, MaybeCommit, Indexed, Agrees, QuorumValue, MatchTable, QuorumSize;
    var n1 := WithProgress(x.leader, x.follower.id, Advanced(x));
    assert PeerOk(h, x.leader.log.term, x.follower.id, Tracked(x));
    PeerUpdated(h, ids, x.leader, x.follower.id, Advanced(x));
    ReadTableOf(h, ids, n1);
    TableSize(n1);
    var index := QuorumValue(MatchTable(n1), QuorumSize(n1));
    if index > 0 { QuorumAcked(h, ids, n1, index); }
    CommitSame(n1);
    assert AdvanceMatch(Tracked(x), Advanced(x).matchIndex) == Advanced(x);
  }

  /** After an acknowledgement, the leader sends the entries that follow, if there are any. */
  lemma NextAppend(n: Node, peer: NodeID)
    requires n.role.Leader? && peer in n.role.progress && n.maxAppend >= 1 && Indexed(n.log.entries)
    requires n.role.progress[peer].matchIndex <= |n.log.entries|
    requires n.role.progress[peer].nextIndex == n.role.progress[peer].matchIndex + 1
    ensures var p, l := n.role.progress[peer], |n.log.entries|;
      var o := SendAppend(n, peer, false);
      var es := Between(n.log.entries, p.matchIndex, p.matchIndex + n.maxAppend);
      if p.matchIndex == l then o == Quiet(n)
      else
        && es != [] && p.matchIndex + |es| <= l && es == n.log.entries[p.matchIndex..p.matchIndex + |es|]
        && o.node == WithProgress(n, peer, p.(nextIndex := p.matchIndex + |es| + 1))
        && o.sent == {Mail(n, peer, Append(p.matchIndex, TermAt(n.log.entries, p.matchIndex), es))}
  {
    hide Indexed, TermAt, Between;
    var p := n.role.progress[peer];
    if p.matchIndex < |n.log.entries| {
      BatchEnds(n.log.entries, p.matchIndex, n.maxAppend);
    } else {
      assert n.role.progress[peer := p] == n.role.progress;
    }
  }

  /** The leader's part of an accepted round. */
  lemma LeaderAdvances(h: History, ids: set<NodeID>, x: Exchange)
    requires InFlight(x) && NodeOk(h, ids, x.leader)
    requires Acked(h, x.leader.log.term, x.follower.id, Advanced(x).matchIndex)
    requires x.follower.id in x.leader.peers
    ensures var o := OnAppendResponse(x.leader, x.follower.id, Advanced(x).matchIndex, 0);
      var log, end := x.leader.log.entries, Advanced(x).matchIndex;
      var es := Between(log, end, end + x.leader.maxAppend);
      && o.node.role.Leader? && x.follower.id in o.node.role.progress && o.node.log.entries == log
      && o.node.log.term == x.leader.log.term && o.node.id == x.leader.id && o.node.maxAppend == x.leader.maxAppend
      && o.node.role.progress[x.follower.id].matchIndex == end
      && if end == |log| then AppendSent(o.sent) == None
         else
           && es != [] && end + |es| <= |log| && es == log[end..end + |es|]
           && o.node.role.progress[x.follower.id].nextIndex == end + |es| + 1
           && AppendSent(o.sent) == Some(Append(end, TermAt(log, end), es))
  {
    hide NodeOk, ConfirmMatch, SendAppend, Indexed, TermAt, Between, Agrees;
    var log, end := x.leader.log.entries, Advanced(x).matchIndex;
    FitsLog(log, x.message.value);
    AdvancedMatch(x, h, ids);
    var o1 := ConfirmMatch(x.leader, x.follower.id, end);
    NextAppend(o1.node, x.follower.id);
    var o := OnAppendResponse(x.leader, x.follower.id, end, 0);
    if end < |log| {
      var es := Between(log, end, end + x.leader.maxAppend);
      TheAppend(o.sent, Mail(o1.node, x.follower.id, Append(end, TermAt(log, end), es)));
    }
  }

  /**
   * An accepted append advances the match index to its end, where the follower has the leader's log; the next append
   * starts there, unless that is the end of the log.
   */
  lemma AcceptedRound(h: History, ids: set<NodeID>, x: Exchange) returns (h': History)
    requires Syncing(h, ids, x) && Agrees(x.leader.log.entries, x.follower.log.entries, x.message.value.baseIndex)
    ensures var y := Round(x);
      && y.leader.role.Leader? && y.leader.log.entries == x.leader.log.entries && y.leader.id == x.leader.id
      && y.follower.id == x.follower.id && x.follower.id in y.leader.role.progress
      && Tracked(y).matchIndex == Advanced(x).matchIndex > Tracked(x).matchIndex
      && Tracked(y).matchIndex <= |x.leader.log.entries|
      && x.leader.log.entries[..Tracked(y).matchIndex] <= y.follower.log.entries
      && if Tracked(y).matchIndex == |x.leader.log.entries| then y.message == None else Syncing(h', ids, y)
  {
    hide HistoryOk, NodeOk, OnAppend, OnAppendResponse, ResponseSent, AppendSent, Agrees, Indexed, TermAt, Between;
    hide Grows, ActedOnly, ArrivalsNow, CommitsNow, MailOk, AppendFits;
    FitsLog(x.leader.log.entries, x.message.value);
    var h1 := AcceptedAppend(h, ids, x);
    var y := Round(x);
    assert x.follower.id in x.leader.peers by { PeersOf(h, ids, x); }
    LeaderAdvances(h1, ids, x);
    h' := ResponseKept(h1, ids, x, y.follower);
    PeerHolds(h', ids, y.leader, y.follower);
    if Tracked(y).matchIndex < |x.leader.log.entries| { NextInFlight(x, y); }
  }

  lemma PeersOf(h: History, ids: set<NodeID>, x: Exchange)
    requires NodeOk(h, ids, x.leader) && NodeOk(h, ids, x.follower) && x.leader.id != x.follower.id
    ensures x.follower.id in x.leader.peers
  {}

  /** The leader's response keeps the invariant of both nodes. */
  lemma ResponseKept(h: History, ids: set<NodeID>, x: Exchange, follower: Node) returns (h': History)
    requires InFlight(x) && HistoryOk(h, ids) && NodeOk(h, ids, x.leader) && NodeOk(h, ids, follower)
    requires follower.id == x.follower.id != x.leader.id && x.follower.id in x.leader.peers
    requires Acked(h, x.leader.log.term, x.follower.id, Advanced(x).matchIndex)
    ensures HistoryOk(h', ids) && NodeOk(h', ids, follower)
    ensures NodeOk(h', ids, OnAppendResponse(x.leader, x.follower.id, Advanced(x).matchIndex, 0).node)
  {
    hide HistoryOk, NodeOk, OnAppendResponse, Agrees, Indexed, Grows, ActedOnly, ArrivalsNow, CommitsNow, MailOk;
    FitsLog(x.leader.log.entries, x.message.value);
    var n := x.leader;
    var now := Moment(0, map[n.id := n.log.term, follower.id := follower.log.term], h.commits, None, false);
    h' := OnAppendResponseGood(ids, now, h, n, follower.id, Advanced(x).matchIndex, 0);
    OtherKept(h, h', ids, now, n, OnAppendResponse(n, follower.id, Advanced(x).matchIndex, 0), follower);
  }

  lemma NextInFlight(x: Exchange, y: Exchange)
    requires InFlight(x) && y.leader.role.Leader? && y.leader.log.entries == x.leader.log.entries
    requires y.leader.maxAppend == x.leader.maxAppend && y.follower.id in y.leader.role.progress
    requires var log, p := x.leader.log.entries, Tracked(y);
      var es := Between(log, p.matchIndex, p.matchIndex + x.leader.maxAppend);
      && 0 < p.matchIndex < |log| && es != [] && p.matchIndex + |es| <= |log|
      && es == log[p.matchIndex..p.matchIndex + |es|] && p.nextIndex == p.matchIndex + |es| + 1
      && y.message == Some(Append(p.matchIndex, TermAt(log, p.matchIndex), es))
      && |y.follower.log.entries| >= p.matchIndex && y.follower.log.entries[..p.matchIndex] == log[..p.matchIndex]
    ensures InFlight(y)
  {
    hide Indexed, Between;
    var i := Tracked(y).matchIndex;
    assert y.follower.log.entries[..i][i - 1] == x.leader.log.entries[..i][i - 1];
  }

  /** A rejected round keeps the invariant, and the history. */
  lemma RejectedKept(h: History, ids: set<NodeID>, x: Exchange)
    requires Syncing(h, ids, x) && !Agrees(x.leader.log.entries, x.follower.log.entries, x.message.value.baseIndex)
    ensures Syncing(h, ids, Round(x))
  {
    hide HistoryOk, DurableOk, PendingOk, Confirmed, Round, Agrees, Indexed, TermAt, Between, AppendFits;
    RejectedRound(x);
    FitsLog(x.leader.log.entries, x.message.value);
    var r := RejectIndex(x.follower.log.entries, x.message.value.baseIndex);
    RejectionLowers(x.leader.log.entries, x.follower.log.entries, Tracked(x), x.message.value.baseIndex);
    RetriedRound(x, r);
    PeersOf(h, ids, x);
    assert PeerOk(h, x.leader.log.term, x.follower.id, Tracked(x));
    PeerUpdated(h, ids, x.leader, x.follower.id, Tracked(Round(x)));
  }

  /**
   * Replication completes: in any state of a cluster, the exchange that starts with the last append sent to a
   * follower ends, with the leader's whole log in the follower's and the leader knowing so.
   */
  lemma {:induction false} ReplicationCompletes(h: History, ids: set<NodeID>, x: Exchange) returns (k: nat)
    requires Syncing(h, ids, x)
    ensures var y := Rounds(x, k);
      && y.message == None
      && x.leader.log.entries == y.leader.log.entries <= y.follower.log.entries
      && y.leader.role.Leader? && x.follower.id in y.leader.role.progress
      && y.leader.role.progress[x.follower.id].matchIndex == |x.leader.log.entries|
    decreases |x.leader.log.entries| - Tracked(x).matchIndex, x.message.value.baseIndex
  {
    hide HistoryOk, NodeOk, Round, Agrees, Indexed, AppendFits;
    if Agrees(x.leader.log.entries, x.follower.log.entries, x.message.value.baseIndex) {
      var h' := AcceptedRound(h, ids, x);
      var y := Round(x);
      if y.message == None {
        k := 1;
        assert Rounds(x, 1) == Rounds(y, 0);
        assert y.leader.log.entries[..|y.leader.log.entries|] == y.leader.log.entries;
      } else {
        k := ReplicationCompletes(h', ids, y);
        k := k + 1;
      }
    } else {
      RejectedRound(x);
      RejectedKept(h, ids, x);
      k := ReplicationCompletes(h, ids, Round(x));
      k := k + 1;
    }
  }

  /** Both nodes, and the append in flight, in a state of a run. */
  function InRun(run: Run, k: nat, a: NodeID, b: NodeID, m: Message): Exchange
    requires run.At(k, a) && run.At(k, b)
  {
    Exchange(run.Node(k, a), run.Node(k, b), Some(m))
  }

  /** `m` is the last append the leader sent to `b`, and has not been acknowledged. */
  predicate LastSent(leader: Node, b: NodeID, m: Message) {
    && leader.role.Leader? && m.Append? && b in leader.role.progress
    && var p := leader.role.progress[b];
       p.matchIndex <= m.baseIndex && p.matchIndex < m.baseIndex + |m.entries| == p.nextIndex - 1
  }

  /**
   * In every state of every run, a follower of the current leader catches up: the exchange that starts with the last
   * append sent to it ends with the leader's whole log in its own, and the leader knowing so.
   */
  lemma FollowerCatchesUp(run: Run, k: nat, a: NodeID, b: NodeID, e: Envelope) returns (rounds: nat)
    requires run.Valid() && run.At(k, a) && run.At(k, b) && e in run.states[k].net
    requires e.from == a && e.to == b && e.term == run.Node(k, a).log.term == run.Node(k, b).log.term
    requires run.Node(k, b).role.Follower? && run.Node(k, b).role.leader == Some(a)
    requires LastSent(run.Node(k, a), b, e.message)
    ensures var x := InRun(run, k, a, b, e.message);
      var y := Rounds(x, rounds);
      && y.message == None
      && x.leader.log.entries == y.leader.log.entries <= y.follower.log.entries
      && y.leader.role.Leader? && b in y.leader.role.progress
      && y.leader.role.progress[b].matchIndex == |x.leader.log.entries|
  {
    hide Explains, HistoryOk, NodeOk, MailOk, Init, Next, InFlight, Rounds;
    var h := Explain(run, k);
    var ids := run.states[0].nodes.Keys;
    ExplainedParts(run, k, h);
    ExplainedPast(run, k, h, k, a);
    var x := InRun(run, k, a, b, e.message);
    FlightInRun(h, ids, x, e);
    rounds := ReplicationCompletes(h, ids, x);
  }

  lemma FlightInRun(h: History, ids: set<NodeID>, x: Exchange, e: Envelope)
    requires NodeOk(h, ids, x.leader) && NodeOk(h, ids, x.follower) && MailOk(h, ids, e) && x.message == Some(e.message)
    requires e.from == x.leader.id && e.to == x.follower.id && e.term == x.leader.log.term == x.follower.log.term
    requires LastSent(x.leader, x.follower.id, e.message)
    ensures InFlight(x) && x.leader.id != x.follower.id
  {
    hide PendingOk, VoteMatches, AcksKept, CommitsKept, TermCurrent, LogOk, Indexed, Confirmed, Acked, CandidateOk;
    LogIndexed(h, x.leader.log.entries);
    assert PeerOk(h, x.leader.log.term, x.follower.id, x.leader.role.progress[x.follower.id]);
    PeerHolds(h, ids, x.leader, x.follower);
    var i := Tracked(x).matchIndex;
    if i > 0 { assert x.follower.log.entries[..i][i - 1] == x.leader.log.entries[..i][i - 1]; }
  }

  lemma SplicingNow(h: History, ids: set<NodeID>, x: Exchange)
    requires Syncing(h, ids, x) && Agrees(x.leader.log.entries, x.follower.log.entries, x.message.value.baseIndex)
    ensures var m, f := x.message.value, x.follower;
      Splicing(h, ids, f.log.entries, f.log.term, m.baseIndex, m.baseTerm, m.entries)
  {
    hide BallotsOk, AcksOk, CommitsOk, ArrivalsOk, PeerOk, PendingOk, AcksKept, CommitsKept, TermCurrent, VoteMatches,
      LogOk;
  }
}
