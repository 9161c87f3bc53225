/**
 * The Raft log as a value: the operations of `src/raft/log.rs` on a sequence of
 * entries. Every assertion of the source is a `Failed` result naming the panic,
 * so that the cluster proofs can say which panics are reachable.
 */
module RaftLog {
  import opened Common

  type NodeID = nat
  type Term = nat
  type Index = nat
  type Command = seq<int>

  /** A log entry. Indexes start at 1; `None` is the noop a new leader appends. */
  datatype Entry = Entry(index: Index, term: Term, command: Option<Command>)

  /** The assertions of log.rs and node.rs, one constructor per source panic. */
  datatype Panic =
    // log.rs
    | TermZero | TermRegression | VoteChange | AppendInTermZero
    | CommitRegression | CommitMissing
    | SpliceZero | SpliceGap | SpliceTermRegression | SpliceBeyondTerm
    | SpliceBaseTerm | SpliceDetached | SpliceCommandMismatch | SpliceBelowCommit
    // node.rs
    | UnknownSender | CommitAfterLast | MultipleLeaders | LeaderNotPeer | BaseMismatch
    | ForeignClientRequest | ResponseFromNonLeader | UnexpectedMessage
    | NotOwnVote | LastTermStale | UnknownNode | InvalidProgress
    | FutureMatch | FutureReadSeq | FutureReject | InvalidAppendResponse | SawOtherLeader

  /** The durable log state, plus the commit index (stored, but not flushed). */
  datatype Log = Log(
    term: Term,
    vote: Option<NodeID>,
    entries: seq<Entry>,
    commitIndex: Index,
    commitTerm: Term)

  datatype LogResult = Done(log: Log) | Failed(panic: Panic)

  const EMPTY_LOG := Log(0, None, [], 0, 0)

  /** The term of the last entry, or 0 for an empty log. */
  function LastTerm(entries: seq<Entry>): Term {
    if entries == [] then 0 else entries[|entries| - 1].term
  }

  /** The term stored at an index, or 0 if there is no such entry. */
  function TermAt(entries: seq<Entry>, index: Index): Term {
    if 1 <= index <= |entries| then entries[index - 1].term else 0
  }

  /** Does the log hold an entry with this index and term? */
  predicate Has(entries: seq<Entry>, index: Index, term: Term) {
    1 <= index <= |entries| && entries[index - 1].term == term
  }

  /** Is this log more up-to-date than a log ending in (lastIndex, lastTerm)? Section 5.4.1 of the Raft paper. */
  predicate Newer(entries: seq<Entry>, lastIndex: Index, lastTerm: Term) {
    || LastTerm(entries) > lastTerm
    || (LastTerm(entries) == lastTerm && |entries| > lastIndex)
  }

  /** The entries after `lo` up to and including index `hi`, cut to what exists. */
  function Between(entries: seq<Entry>, lo: nat, hi: nat): (r: seq<Entry>)
    ensures lo <= hi <= |entries| ==> r == entries[lo..hi]
  {
    var h := if hi <= |entries| then hi else |entries|;
    if lo <= h then entries[lo..h] else []
  }

  function SetTermVote(log: Log, term: Term, vote: Option<NodeID>): LogResult {
    if term == 0 then Failed(TermZero)
    else if term < log.term then Failed(TermRegression)
    else if term == log.term && log.vote.Some? && vote != log.vote then Failed(VoteChange)
    else Done(log.(term := term, vote := vote))
  }

  function Append(log: Log, command: Option<Command>): LogResult {
    if log.term == 0 then Failed(AppendInTermZero)
    else Done(log.(entries := log.entries + [Entry(|log.entries| + 1, log.term, command)]))
  }

  function Commit(log: Log, index: Index): LogResult {
    if !(1 <= index <= |log.entries|) then Failed(CommitMissing)
    else if index < log.commitIndex then Failed(CommitRegression)
    else if index == log.commitIndex then Done(log)
    else Done(log.(commitIndex := index, commitTerm := log.entries[index - 1].term))
  }

  predicate Contiguous(es: seq<Entry>) {
    forall i :: 0 < i < |es| ==> es[i].index == es[i - 1].index + 1
  }

  predicate TermsAscend(es: seq<Entry>) {
    forall i :: 0 < i < |es| ==> es[i - 1].term <= es[i].term
  }

  /** How many leading entries of `es` are already stored, by index and term. */
  function Stored(entries: seq<Entry>, es: seq<Entry>): (k: nat)
    ensures k <= |es|
    ensures forall i :: 0 <= i < k ==> Has(entries, es[i].index, es[i].term)
    ensures k < |es| ==> !Has(entries, es[k].index, es[k].term)
  {
    if es == [] || !Has(entries, es[0].index, es[0].term) then 0
    else 1 + Stored(entries, es[1..])
  }

  /** The stored entries carry the same commands as the first `k` spliced ones. */
  predicate CommandsAgree(entries: seq<Entry>, es: seq<Entry>, k: nat)
    requires k <= |es|
  {
    forall i :: 0 <= i < k ==>
      Has(entries, es[i].index, es[i].term) && entries[es[i].index - 1].command == es[i].command
  }

  function Splice(log: Log, es: seq<Entry>): LogResult {
    if es == [] then Done(log)
    else if es[0].index == 0 || es[0].term == 0 then Failed(SpliceZero)
    else if !Contiguous(es) then Failed(SpliceGap)
    else if !TermsAscend(es) then Failed(SpliceTermRegression)
    else if es[|es| - 1].term > log.term then Failed(SpliceBeyondTerm)
    else if es[0].index - 1 > |log.entries| then Failed(SpliceDetached)
    else if es[0].term < TermAt(log.entries, es[0].index - 1) then Failed(SpliceBaseTerm)
    else
      var k := Stored(log.entries, es);
      if !CommandsAgree(log.entries, es, k) then Failed(SpliceCommandMismatch)
      else if k == |es| then Done(log)
      else if es[k].index <= log.commitIndex then Failed(SpliceBelowCommit)
      else Done(log.(entries := Between(log.entries, 0, es[k].index - 1) + es[k..]))
  }
}
