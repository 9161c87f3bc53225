/**
 * The log of src/raft/log.rs as it is kept: entries in a key/value engine, with the term, vote and last and
 * commit positions cached in memory. Every method is proved against the sequence operations of RaftLog, and
 * panics exactly when they fail.
 */
module RaftLogStore {
  import opened Common
  import opened RaftLog

  /** The invariants the source states: gap-free indexes from 1, terms that never decrease nor pass the current term. */
  ghost predicate WellFormed(log: Log) {
    && (forall i :: 0 <= i < |log.entries| ==> log.entries[i].index == i + 1)
    && TermsAscend(log.entries)
    && (forall i :: 0 <= i < |log.entries| ==> 1 <= log.entries[i].term <= log.term)
    && log.commitIndex <= |log.entries|
    && log.commitTerm == TermAt(log.entries, log.commitIndex)
  }

  /** The engine's entry keys hold exactly the sequence. */
  ghost predicate Holds(engine: map<Index, Entry>, entries: seq<Entry>) {
    && (forall i :: i in engine <==> 1 <= i <= |entries|)
    && (forall i :: 1 <= i <= |entries| ==> engine[i] == entries[i - 1])
  }

  // ---------------------------------------------------------------- splice as sequence replacement

  /** Every entry is already in the log, command and all. */
  ghost predicate AllPresent(entries: seq<Entry>, es: seq<Entry>) {
    forall i :: 0 <= i < |es| ==> 1 <= es[i].index <= |entries| && entries[es[i].index - 1] == es[i]
  }

  lemma {:induction false} ContiguousFrom(es: seq<Entry>, i: nat)
    requires Contiguous(es) && i < |es|
    ensures es[i].index == es[0].index + i
  {
    if i > 0 { ContiguousFrom(es, i - 1); }
  }

  lemma {:induction false} AscendFrom(es: seq<Entry>, i: nat, j: nat)
    requires TermsAscend(es) && i <= j < |es|
    ensures es[i].term <= es[j].term
  {
    if i < j { AscendFrom(es, i, j - 1); }
  }

  /** Contiguous entries have the indexes from the first one on. */
  ghost predicate IndexedFrom(es: seq<Entry>, first: Index) {
    forall i :: 0 <= i < |es| ==> es[i].index == first + i
  }

  lemma ContiguousIndexed(es: seq<Entry>)
    requires Contiguous(es) && es != []
    ensures IndexedFrom(es, es[0].index)
  {
    hide Contiguous;
    forall i | 0 <= i < |es| ensures es[i].index == es[0].index + i { ContiguousFrom(es, i); }
  }

  lemma EntryIndexes(log: Log)
    requires WellFormed(log)
    ensures IndexedFrom(log.entries, 1) && log.commitIndex <= |log.entries|
  {
    hide TermsAscend;
  }

  /** The log holds the first `k` of the entries after position `base`. */
  ghost predicate Overlaps(entries: seq<Entry>, es: seq<Entry>, base: nat, k: nat) {
    k <= |es| && base + k <= |entries| && entries[base..base + k] == es[..k]
  }

  lemma SkippedAt(entries: seq<Entry>, es: seq<Entry>, i: nat)
    requires IndexedFrom(entries, 1) && es != [] && es[0].index >= 1 && IndexedFrom(es, es[0].index)
    requires CommandsAgree(entries, es, Stored(entries, es)) && i < Stored(entries, es)
    ensures es[0].index - 1 + i < |entries| && entries[es[0].index - 1 + i] == es[i]
  {
    hide Stored;
    assert Has(entries, es[i].index, es[i].term);
  }

  /** The entries skipped by a splice are the stored ones. */
  lemma SkippedAreStored(entries: seq<Entry>, es: seq<Entry>)
    requires IndexedFrom(entries, 1) && es != [] && es[0].index >= 1 && IndexedFrom(es, es[0].index)
    requires es[0].index - 1 <= |entries|
    requires CommandsAgree(entries, es, Stored(entries, es))
    ensures Overlaps(entries, es, es[0].index - 1, Stored(entries, es))
  {
    hide Stored, CommandsAgree, IndexedFrom;
    var k, base := Stored(entries, es), es[0].index - 1;
    if k > 0 { SkippedAt(entries, es, k - 1); }
    forall i | 0 <= i < k ensures entries[base..base + k][i] == es[..k][i] { SkippedAt(entries, es, i); }
  }

  /** What overlaps is in place already, so replacing after it replaces from the start. */
  lemma ReplaceAfterOverlap(entries: seq<Entry>, es: seq<Entry>, base: nat, k: nat, commit: nat)
    requires Overlaps(entries, es, base, k) && commit <= base + k
    ensures base + k <= |entries| && k <= |es|
    ensures Between(entries, 0, base + k) + es[k..] == entries[..base] + es
    ensures entries[..commit] <= entries[..base] + es
  {
    assert es == es[..k] + es[k..];
    assert entries[..base + k] == entries[..base] + entries[base..base + k];
    assert entries[..commit] <= entries[..base + k];
  }

  lemma PresentIffStored(entries: seq<Entry>, es: seq<Entry>)
    requires es != [] && es[0].index >= 1 && IndexedFrom(es, es[0].index)
    requires Overlaps(entries, es, es[0].index - 1, Stored(entries, es))
    ensures AllPresent(entries, es) <==> Stored(entries, es) == |es|
  {
    hide Stored;
    var k, base := Stored(entries, es), es[0].index - 1;
    if k < |es| {
      assert !Has(entries, es[k].index, es[k].term);
    } else {
      forall i | 0 <= i < |es| ensures 1 <= es[i].index <= |entries| && entries[es[i].index - 1] == es[i] {
        assert es[i].index == base + 1 + i;
        assert entries[base..base + k][i] == es[..k][i];
      }
    }
  }

  /** The checks that a splice passed. */
  lemma SplicePassed(log: Log, es: seq<Entry>)
    requires es != [] && Splice(log, es).Done?
    ensures 1 <= es[0].index <= |log.entries| + 1 && es[0].term >= 1 && es[|es| - 1].term <= log.term
    ensures Contiguous(es) && TermsAscend(es) && TermAt(log.entries, es[0].index - 1) <= es[0].term
    ensures CommandsAgree(log.entries, es, Stored(log.entries, es))
  {
    hide Stored, CommandsAgree, Contiguous, TermsAscend, Has, Between;
  }

  /** What a splice made of the log. */
  lemma SpliceMeans(log: Log, es: seq<Entry>, k: nat)
    requires es != [] && Splice(log, es).Done? && k == Stored(log.entries, es)
    ensures k == |es| ==> Splice(log, es).log == log
    ensures k < |es| ==> es[k].index > log.commitIndex
    ensures k < |es| ==> Splice(log, es).log == log.(entries := Between(log.entries, 0, es[k].index - 1) + es[k..])
  {
    hide Stored, CommandsAgree, Contiguous, TermsAscend, Has, Between;
  }

  /**
   * Splicing leaves the log as it is if every entry is already there, and otherwise replaces everything from the
   * first entry on. Neither touches a committed entry.
   */
  lemma SpliceReplaces(log: Log, es: seq<Entry>)
    requires WellFormed(log) && es != [] && Splice(log, es).Done?
    ensures var log' := Splice(log, es).log;
      && 1 <= es[0].index <= |log.entries| + 1
      && log' == log.(entries := if AllPresent(log.entries, es) then log.entries
        else log.entries[..es[0].index - 1] + es)
      && log.entries[..log.commitIndex] <= log'.entries
      && Overlaps(log.entries, es, es[0].index - 1, Stored(log.entries, es))
  {
    hide WellFormed, Splice, Stored, AllPresent, IndexedFrom, CommandsAgree, Contiguous, TermsAscend, TermAt, Has,
      Overlaps, Between;
    EntryIndexes(log);
    SplicePassed(log, es);
    ContiguousIndexed(es);
    var k, base := Stored(log.entries, es), es[0].index - 1;
    SpliceMeans(log, es, k);
    SkippedAreStored(log.entries, es);
    PresentIffStored(log.entries, es);
    if k < |es| {
      IndexAt(es, k);
      ReplaceAfterOverlap(log.entries, es, base, k, log.commitIndex);
    }
  }

  lemma IndexAt(es: seq<Entry>, k: nat)
    requires k < |es| && IndexedFrom(es, es[0].index)
    ensures es[k].index == es[0].index + k
  {
  }

  /** A spliced log is well-formed again. */
  lemma SpliceKeeps(log: Log, es: seq<Entry>)
    requires WellFormed(log) && Splice(log, es).Done?
    ensures WellFormed(Splice(log, es).log)
  {
    hide Splice, Contiguous, TermsAscend, AllPresent, Stored, CommandsAgree, Has, Overlaps;
    if es == [] {
      SpliceNothing(log);
    } else {
      SpliceReplaces(log, es);
      if !AllPresent(log.entries, es) {
        SplicePassed(log, es);
        ContiguousIndexed(es);
        AscendAcross(log.entries, es, es[0].index - 1);
        SpliceTerms(log, es);
        var entries := log.entries[..es[0].index - 1] + es;
        assert log.entries[..log.commitIndex] <= entries;
        if log.commitIndex > 0 { assert entries[log.commitIndex - 1] == log.entries[log.commitIndex - 1]; }
      }
    }
  }

  lemma SpliceNothing(log: Log)
    ensures Splice(log, []) == Done(log)
  {
  }

  lemma SpliceTerms(log: Log, es: seq<Entry>)
    requires WellFormed(log) && es != [] && Splice(log, es).Done?
    ensures forall i :: 0 <= i < |es| ==> 1 <= es[i].term <= log.term
  {
    hide TermsAscend, Contiguous, WellFormed, Stored, Splice, CommandsAgree;
    SplicePassed(log, es);
    forall i | 0 <= i < |es| ensures 1 <= es[i].term <= log.term {
      AscendFrom(es, 0, i);
      AscendFrom(es, i, |es| - 1);
    }
  }

  lemma AscendAcross(entries: seq<Entry>, es: seq<Entry>, base: nat)
    requires TermsAscend(entries) && TermsAscend(es) && base <= |entries| && es != []
    requires TermAt(entries, base) <= es[0].term
    ensures TermsAscend(entries[..base] + es)
  {
    var all := entries[..base] + es;
    forall i | 0 < i < |all| ensures all[i - 1].term <= all[i].term {
      if i < base {
        assert all[i - 1] == entries[i - 1] && all[i] == entries[i];
      } else if i == base {
        assert all[i - 1] == entries[i - 1] && all[i] == es[0];
      } else {
        assert all[i - 1] == es[i - 1 - base] && all[i] == es[i - base];
      }
    }
  }

  lemma OthersKeep(log: Log, term: Term, vote: Option<NodeID>, command: Option<Command>, index: Index)
    requires WellFormed(log)
    ensures SetTermVote(log, term, vote).Done? ==> WellFormed(SetTermVote(log, term, vote).log)
    ensures Append(log, command).Done? ==> WellFormed(Append(log, command).log)
    ensures Commit(log, index).Done? ==> WellFormed(Commit(log, index).log)
  {
    hide TermsAscend;
    if Append(log, command).Done? {
      AppendAscends(log.entries, Append(log, command).log.entries[|log.entries|]);
    }
  }

  lemma AppendAscends(entries: seq<Entry>, e: Entry)
    requires TermsAscend(entries) && forall i :: 0 <= i < |entries| ==> entries[i].term <= e.term
    ensures TermsAscend(entries + [e])
  {
    var all := entries + [e];
    forall i | 0 < i < |all| ensures all[i - 1].term <= all[i].term {
      if i < |entries| { assert all[i - 1] == entries[i - 1] && all[i] == entries[i]; }
    }
  }

  // ---------------------------------------------------------------- the store

  class LogStore {
    // The engine's keys.
    var storedEntries: map<Index, Entry>
    var storedTermVote: Option<(Term, Option<NodeID>)>
    var storedCommit: Option<(Index, Term)>
    // Cached in memory.
    var term: Term
    var vote: Option<NodeID>
    var lastIndex: Index
    var lastTerm: Term
    var commitIndex: Index
    var commitTerm: Term
    // The log as a value.
    ghost var contents: Log

    ghost predicate Valid()
      reads this
    {
      && WellFormed(contents)
      && Holds(storedEntries, contents.entries)
      && storedTermVote == (if term == 0 && vote.None? && storedTermVote.None? then None else Some((term, vote)))
      && storedCommit == (if commitIndex == 0 && storedCommit.None? then None else Some((commitIndex, commitTerm)))
      && contents == Log(term, vote, contents.entries, commitIndex, commitTerm)
      && lastIndex == |contents.entries| && lastTerm == LastTerm(contents.entries)
    }

    /** The cached positions are those of the log. */
    lemma Cached()
      requires Valid()
      ensures term == contents.term && vote == contents.vote
      ensures commitIndex == contents.commitIndex && commitTerm == contents.commitTerm
      ensures lastIndex == |contents.entries| && lastTerm == LastTerm(contents.entries)
      ensures WellFormed(contents)
    {
    }

    /** `Log::new`: restores the log that the engine holds. */
    constructor (entries: map<Index, Entry>, termVote: Option<(Term, Option<NodeID>)>, commit: Option<(Index, Term)>,
      ghost log: Log)
      requires WellFormed(log) && Holds(entries, log.entries)
      requires (log.term, log.vote) == (if termVote.None? then (0, None) else termVote.value)
      requires (log.commitIndex, log.commitTerm) == if commit.None? then (0, 0) else commit.value
      ensures Valid() && contents == log
      ensures storedEntries == entries && storedTermVote == termVote && storedCommit == commit
    {
      storedEntries, storedTermVote, storedCommit := entries, termVote, commit;
      var (t, v) := if termVote.None? then (0, None) else termVote.value;
      var (ci, ct) := if commit.None? then (0, 0) else commit.value;
      term, vote, commitIndex, commitTerm := t, v, ci, ct;
      contents := log;
      // The last entry of a scan over all entry keys.
      var index, last := 0, 0;
      while index + 1 in entries
        invariant 0 <= index <= |log.entries| && last == TermAt(log.entries, index)
        decreases |log.entries| - index
      {
        index := index + 1;
        last := entries[index].term;
      }
      lastIndex, lastTerm := index, last;
    }

    method SetTermVote(newTerm: Term, newVote: Option<NodeID>) returns (panic: Option<Panic>)
      requires Valid()
      modifies this
      ensures Valid()
      ensures match RaftLog.SetTermVote(old(contents), newTerm, newVote)
        case Done(log) => panic.None? && contents == log
        case Failed(p) => panic == Some(p) && contents == old(contents)
    {
      hide TermsAscend;
      OthersKeep(contents, newTerm, newVote, None, 0);
      if newTerm == 0 { return Some(TermZero); }
      if newTerm < term { return Some(TermRegression); }
      if newTerm == term && vote.Some? && newVote != vote { return Some(VoteChange); }
      if newTerm == term && newVote == vote { return None; }
      storedTermVote := Some((newTerm, newVote));
      term, vote := newTerm, newVote;
      contents := contents.(term := newTerm, vote := newVote);
      panic := None;
    }

    method Append(command: Option<Command>) returns (panic: Option<Panic>)
      requires Valid()
      modifies this
      ensures Valid()
      ensures match RaftLog.Append(old(contents), command)
        case Done(log) => panic.None? && contents == log
        case Failed(p) => panic == Some(p) && contents == old(contents)
    {
      hide TermsAscend, WellFormed, Holds;
      OthersKeep(contents, 0, None, command, 0);
      if term == 0 { return Some(AppendInTermZero); }
      HoldsOneMore(storedEntries, contents.entries, Entry(lastIndex + 1, term, command));
      var entry := Entry(lastIndex + 1, term, command);
      storedEntries := storedEntries[entry.index := entry];
      lastIndex, lastTerm := entry.index, entry.term;
      contents := contents.(entries := contents.entries + [entry]);
      panic := None;
    }

    method Get(index: Index) returns (entry: Option<Entry>)
      requires Valid()
      ensures entry == if 1 <= index <= |contents.entries| then Some(contents.entries[index - 1]) else None
    {
      entry := if index in storedEntries then Some(storedEntries[index]) else None;
    }

    method Commit(index: Index) returns (panic: Option<Panic>)
      requires Valid()
      modifies this
      ensures Valid()
      ensures match RaftLog.Commit(old(contents), index)
        case Done(log) => panic.None? && contents == log
        case Failed(p) => panic == Some(p) && contents == old(contents)
    {
      hide TermsAscend;
      OthersKeep(contents, 0, None, None, index);
      var entry := Get(index);
      if entry.None? { return Some(CommitMissing); }
      if entry.value.index < commitIndex { return Some(CommitRegression); }
      if entry.value.index == commitIndex { return None; }
      storedCommit := Some((index, entry.value.term));
      commitIndex, commitTerm := index, entry.value.term;
      contents := contents.(commitIndex := index, commitTerm := entry.value.term);
      panic := None;
    }

    /** Answers from the cached last position where it can; the answer is that of a lookup. */
    method Has(index: Index, t: Term) returns (r: bool)
      requires Valid()
      ensures r == RaftLog.Has(contents.entries, index, t)
    {
      if index == 0 || index > lastIndex { return false; }
      if (index, t) == (lastIndex, lastTerm) { return true; }
      var entry := Get(index);
      r := entry.Some? && entry.value.term == t;
    }

    /** The committed entries that are not applied yet, in order. */
    method ScanApply(appliedIndex: Index) returns (entries: seq<Entry>)
      requires Valid()
      ensures entries == Between(contents.entries, appliedIndex, contents.commitIndex)
    {
      entries := [];
      if appliedIndex >= commitIndex { return; }
      var i := appliedIndex;
      while i < commitIndex
        invariant appliedIndex <= i <= commitIndex
        invariant entries == contents.entries[appliedIndex..i]
      {
        i := i + 1;
        entries := entries + [storedEntries[i]];
      }
    }

    /** At most `count` entries after an index. */
    method ScanFrom(base: Index, count: nat) returns (entries: seq<Entry>)
      requires Valid()
      ensures entries == Between(contents.entries, base, base + count)
    {
      entries := [];
      if base >= lastIndex { return; }
      var i := base;
      while i < lastIndex && i < base + count
        invariant base <= i <= lastIndex && i <= base + count
        invariant entries == contents.entries[base..i]
      {
        i := i + 1;
        entries := entries + [storedEntries[i]];
      }
    }

    /** Skips entries that are stored, writes the rest, and deletes what is left of the old tail. */
    method Splice(es: seq<Entry>) returns (panic: Option<Panic>)
      requires Valid()
      modifies this
      ensures Valid()
      ensures match RaftLog.Splice(old(contents), es)
        case Done(log) => panic.None? && contents == log
        case Failed(p) => panic == Some(p) && contents == old(contents)
    {
      hide TermsAscend, Contiguous, Stored, CommandsAgree, Holds, WellFormed, LastTerm, Overlaps, AllPresent;
      SpliceNothing(contents);
      if es == [] { return None; }
      var first, last := es[0], es[|es| - 1];
      if first.index == 0 || first.term == 0 { return Some(SpliceZero); }
      if !Contiguous(es) { return Some(SpliceGap); }
      if !TermsAscend(es) { return Some(SpliceTermRegression); }
      if last.term > term { return Some(SpliceBeyondTerm); }
      var base := Get(first.index - 1);
      if base.Some? && first.term < base.value.term { return Some(SpliceBaseTerm); }
      if base.None? && first.index != 1 { return Some(SpliceDetached); }

      var k, mismatch := SkipStored(es);
      if mismatch { return Some(SpliceCommandMismatch); }
      if k == |es| { return None; }
      if es[k].index <= commitIndex { return Some(SpliceBelowCommit); }
      SpliceKeeps(contents, es);
      SpliceReplaces(contents, es);
      ReplaceFrom(es, k);
      panic := None;
    }

    /** How many of the entries are stored already, and whether a stored one has another command. */
    method SkipStored(es: seq<Entry>) returns (k: nat, mismatch: bool)
      requires Valid() && es != [] && es[0].index >= 1 && Contiguous(es) && es[0].index - 1 <= |contents.entries|
      ensures k <= |es|
      ensures mismatch <==> !CommandsAgree(contents.entries, es, Stored(contents.entries, es))
      ensures !mismatch ==> k == Stored(contents.entries, es)
    {
      hide TermsAscend, Contiguous;
      k := 0;
      var index := es[0].index;
      // The scan ends at the last entry's index, or where the stored log does.
      while k < |es| && index in storedEntries
        invariant k <= |es| && index == es[0].index + k
        invariant forall i :: 0 <= i < k ==>
          && RaftLog.Has(contents.entries, es[i].index, es[i].term)
          && contents.entries[es[i].index - 1].command == es[i].command
      {
        var entry := storedEntries[index];
        ContiguousFrom(es, k);
        if entry.term != es[k].term { break; }
        if entry.command != es[k].command {
          StoredAtLeast(contents.entries, es, k + 1);
          return k, true;
        }
        k, index := k + 1, index + 1;
      }
      if k < |es| { ContiguousFrom(es, k); }
      StoredExactly(contents.entries, es, k);
      mismatch := false;
    }

    /** Writes the entries from position `k` on and deletes all stored entries after the last of them. */
    method ReplaceFrom(es: seq<Entry>, k: nat)
      requires Valid() && k < |es| && Contiguous(es) && 1 <= es[0].index <= |contents.entries| + 1
      requires Overlaps(contents.entries, es, es[0].index - 1, k)
      requires WellFormed(contents.(entries := contents.entries[..es[0].index - 1] + es))
      modifies this
      ensures Valid() && contents == old(contents).(entries := old(contents).entries[..es[0].index - 1] + es)
    {
      hide TermsAscend, Contiguous, IndexedFrom, Holds, Overlaps, Rewritten, Trimmed, WellFormed;
      ContiguousIndexed(es);
      ghost var was, base := contents.entries, es[0].index - 1;
      ghost var target := was[..base] + es;
      var last := es[|es| - 1];
      IndexAt(es, |es| - 1);
      StartRewrite(storedEntries, was, es, base, k);
      var i := k;
      while i < |es|
        invariant k <= i <= |es| && Rewritten(storedEntries, was, target, base + i)
        modifies this`storedEntries
      {
        IndexAt(es, i);
        RewriteNext(storedEntries, was, target, base + i);
        storedEntries := storedEntries[es[i].index := es[i]];
        i := i + 1;
      }
      StartTrim(storedEntries, was, target);
      var index := last.index + 1;
      while index <= lastIndex
        invariant last.index < index && Trimmed(storedEntries, target, |was|, index)
        decreases lastIndex + 1 - index
        modifies this`storedEntries
      {
        TrimNext(storedEntries, target, |was|, index);
        storedEntries := storedEntries - {index};
        index := index + 1;
      }
      FinishTrim(storedEntries, target, |was|, index);
      lastIndex, lastTerm := last.index, last.term;
      contents := contents.(entries := target);
    }
  }

  /** Positions up to `n` hold the new log, later ones what is left of the old. */
  ghost predicate Rewritten(engine: map<Index, Entry>, was: seq<Entry>, target: seq<Entry>, n: nat) {
    && n <= |target|
    && (forall i :: i in engine <==> 1 <= i <= |was| || 1 <= i <= n)
    && (forall i :: i in engine ==> engine[i] == if i <= n then target[i - 1] else was[i - 1])
  }

  lemma StartRewrite(engine: map<Index, Entry>, was: seq<Entry>, es: seq<Entry>, base: nat, k: nat)
    requires Holds(engine, was) && Overlaps(was, es, base, k)
    ensures Rewritten(engine, was, was[..base] + es, base + k)
  {
    var target := was[..base] + es;
    forall i | 0 <= i < base + k ensures was[i] == target[i] {
      if i >= base { assert was[base..base + k][i - base] == es[..k][i - base]; }
    }
  }

  lemma RewriteNext(engine: map<Index, Entry>, was: seq<Entry>, target: seq<Entry>, n: nat)
    requires Rewritten(engine, was, target, n) && n < |target|
    ensures Rewritten(engine[n + 1 := target[n]], was, target, n + 1)
  {
  }

  /** All of the new log, and what has not been deleted of the old log's tail. */
  ghost predicate Trimmed(engine: map<Index, Entry>, target: seq<Entry>, last: Index, next: Index) {
    && (forall i :: i in engine <==> 1 <= i <= |target| || next <= i <= last)
    && (forall i :: 1 <= i <= |target| ==> i in engine && engine[i] == target[i - 1])
  }

  lemma StartTrim(engine: map<Index, Entry>, was: seq<Entry>, target: seq<Entry>)
    requires Rewritten(engine, was, target, |target|)
    ensures Trimmed(engine, target, |was|, |target| + 1)
  {
  }

  lemma TrimNext(engine: map<Index, Entry>, target: seq<Entry>, last: Index, next: Index)
    requires Trimmed(engine, target, last, next) && |target| < next <= last
    ensures Trimmed(engine - {next}, target, last, next + 1)
  {
  }

  lemma FinishTrim(engine: map<Index, Entry>, target: seq<Entry>, last: Index, next: Index)
    requires Trimmed(engine, target, last, next) && next > last
    ensures Holds(engine, target)
  {
  }

  lemma HoldsOneMore(engine: map<Index, Entry>, entries: seq<Entry>, e: Entry)
    requires Holds(engine, entries)
    ensures Holds(engine[|entries| + 1 := e], entries + [e])
  {
  }

  lemma {:induction false} StoredAtLeast(entries: seq<Entry>, es: seq<Entry>, k: nat)
    requires k <= |es| && forall i :: 0 <= i < k ==> Has(entries, es[i].index, es[i].term)
    ensures Stored(entries, es) >= k
  {
    if k > 0 { StoredAtLeast(entries, es[1..], k - 1); }
  }

  lemma StoredExactly(entries: seq<Entry>, es: seq<Entry>, k: nat)
    requires k <= |es| && forall i :: 0 <= i < k ==> Has(entries, es[i].index, es[i].term)
    requires k < |es| ==> !Has(entries, es[k].index, es[k].term)
    ensures Stored(entries, es) == k
  {
    StoredAtLeast(entries, es, k);
  }
}
