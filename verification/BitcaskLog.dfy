/**
 * The log format of src/storage/bitcask.rs: an append-only file of key/value records. What a file
 * says is defined by reading it from the start; what it means is the map its records build.
 */
module BitcaskLog {
  import opened Common
  import opened Bytes
  import opened Keycode

  const TWO31: int := 0x8000_0000
  const TWO32: int := 0x1_0000_0000

  /** A set, or a tombstone if there is no value. */
  datatype Record = Record(key: Bytes, value: Option<Bytes>)

  /** Lengths are a u32 and an i32. */
  predicate Fits(r: Record) {
    |r.key| < TWO32 && (r.value.Some? ==> |r.value.value| < TWO31)
  }

  /** Key length, value length or -1, key, value. */
  function Written(r: Record): Bytes {
    BigEndian(|r.key|, 4)
    + BigEndian(if r.value.None? then TWO32 - 1 else |r.value.value|, 4)
    + r.key
    + (if r.value.None? then [] else r.value.value)
  }

  datatype Parsed = Parsed(record: Record, length: nat)

  /** The record at the front of `s`, or none if it is incomplete; any negative value length is a tombstone. */
  function ParseOne(s: Bytes): (r: Option<Parsed>)
    ensures r.Some? ==> 8 <= r.value.length <= |s|
  {
    if |s| < 8 then None
    else
      var keyLen, valueLen := FromBigEndian(s[..4]), FromBigEndian(s[4..8]);
      if 8 + keyLen > |s| then None
      else if valueLen >= TWO31 then Some(Parsed(Record(s[8..8 + keyLen], None), 8 + keyLen))
      else
        var end := 8 + keyLen + valueLen;
        if end > |s| then None
        else Some(Parsed(Record(s[8..8 + keyLen], Some(s[8 + keyLen..end])), end))
  }

  /** All whole records from the start of the file. */
  function Records(s: Bytes): seq<Record> {
    match ParseOne(s)
    case None => []
    case Some(p) => [p.record] + Records(s[p.length..])
  }

  /** The bytes those records take up. */
  function WholeLength(s: Bytes): (n: nat)
    ensures n <= |s|
  {
    match ParseOne(s)
    case None => 0
    case Some(p) => p.length + WholeLength(s[p.length..])
  }

  predicate Whole(s: Bytes) { WholeLength(s) == |s| }

  function Apply(m: map<Bytes, Bytes>, r: Record): map<Bytes, Bytes> {
    if r.value.None? then m - {r.key} else m[r.key := r.value.value]
  }

  /** The plain map that the records build, in order: src/storage/memory.rs. */
  function Replay(rs: seq<Record>): map<Bytes, Bytes> {
    if rs == [] then map[] else Apply(Replay(rs[..|rs| - 1]), rs[|rs| - 1])
  }

  // ---------------------------------------------------------------- one record

  lemma WrittenParses(r: Record, rest: Bytes)
    requires Fits(r)
    ensures ParseOne(Written(r) + rest) == Some(Parsed(r, |Written(r)|))
  {
    var s := Written(r) + rest;
    var k, v := |r.key|, if r.value.None? then TWO32 - 1 else |r.value.value|;
    assert Power(4) == TWO32 by { assert Power(2) == 65536; }
    BigEndianBack(k, 4);
    BigEndianBack(v, 4);
    assert s[..4] == BigEndian(k, 4);
    assert s[4..8] == BigEndian(v, 4);
    assert s[8..8 + k] == r.key;
    if r.value.Some? { assert s[8 + k..8 + k + v] == r.value.value; }
  }

  /** Parsing looks no further than the record it finds. */
  lemma ParseExtends(s: Bytes, t: Bytes)
    requires s <= t && ParseOne(s).Some?
    ensures ParseOne(t) == ParseOne(s)
  {
    assert s[..4] == t[..4] && s[4..8] == t[4..8];
    var keyLen := FromBigEndian(s[..4]);
    assert s[8..8 + keyLen] == t[8..8 + keyLen];
    var p := ParseOne(s).value;
    assert s[8 + keyLen..p.length] == t[8 + keyLen..p.length];
  }

  /** A cut short of the end of the first record leaves no record; any other cut leaves it. */
  lemma ParseTruncated(s: Bytes, t: nat)
    requires t <= |s| && ParseOne(s).Some?
    ensures ParseOne(s[..t]) == if t < ParseOne(s).value.length then None else ParseOne(s)
  {
    if ParseOne(s[..t]).Some? { ParseExtends(s[..t], s); }
    var keyLen := FromBigEndian(s[..4]);
    if t >= 8 {
      assert s[..t][..4] == s[..4] && s[..t][4..8] == s[4..8];
    }
  }

  lemma NothingParses()
    ensures ParseOne([]) == None && Records([]) == [] && WholeLength([]) == 0
  {
  }

  // ---------------------------------------------------------------- whole files

  lemma {:induction false} AppendRecord(s: Bytes, r: Record)
    requires Whole(s) && Fits(r)
    ensures Records(s + Written(r)) == Records(s) + [r]
    ensures Whole(s + Written(r))
  {
    hide ParseOne, Written, Fits;
    var t := s + Written(r);
    NothingParses();
    if s == [] {
      WrittenParses(r, []);
      assert t == Written(r) + [] && t[|Written(r)|..] == [];
    } else {
      var p := ParseOne(s).value;
      ParseExtends(s, t);
      AppendRecord(s[p.length..], r);
      assert t[p.length..] == s[p.length..] + Written(r);
    }
  }

  /** The end of the `n`th whole record of a file. */
  function EndOf(s: Bytes, n: nat): nat
    requires n <= |Records(s)|
  {
    if n == 0 then 0
    else
      var p := ParseOne(s).value;
      p.length + EndOf(s[p.length..], n - 1)
  }

  /** Truncation at any byte keeps exactly the records that end at or before it. */
  lemma {:induction false} Truncated(s: Bytes, t: nat)
    requires t <= |s|
    ensures var n := |Records(s[..t])|;
      && n <= |Records(s)|
      && Records(s[..t]) == Records(s)[..n]
      && WholeLength(s[..t]) == EndOf(s, n) <= t
      && (n < |Records(s)| ==> t < EndOf(s, n + 1))
    decreases |s|
  {
    hide ParseOne;
    var c := s[..t];
    if ParseOne(s).None? {
      if ParseOne(c).Some? { ParseExtends(c, s); }
    } else {
      var p := ParseOne(s).value;
      ParseTruncated(s, t);
      if t >= p.length {
        Truncated(s[p.length..], t - p.length);
        assert c[p.length..] == s[p.length..][..t - p.length];
      }
    }
  }

  /** What recovery keeps is a whole file with the same records. */
  lemma {:induction false} RecoveredIsWhole(s: Bytes)
    ensures Whole(s[..WholeLength(s)]) && Records(s[..WholeLength(s)]) == Records(s)
    decreases |s|
  {
    hide ParseOne;
    var c := s[..WholeLength(s)];
    if ParseOne(s).Some? {
      var p := ParseOne(s).value;
      var s' := s[p.length..];
      RecoveredIsWhole(s');
      ParseTruncated(s, WholeLength(s));
      assert c[p.length..] == s'[..WholeLength(s')];
    }
  }

  /**
   * Crash recovery: a write cut off before its last byte leaves the map from before the write, a complete one the
   * map after it.
   */
  lemma TornWrite(s: Bytes, r: Record, t: nat)
    requires Whole(s) && Fits(r) && |s| <= t <= |s + Written(r)|
    ensures Replay(Records((s + Written(r))[..t])) == if t < |s + Written(r)| then Replay(Records(s))
      else Apply(Replay(Records(s)), r)
  {
    hide ParseOne, Written, Fits, Records, WholeLength, EndOf, Apply;
    var f := s + Written(r);
    var n := |Records(s)|;
    AppendRecord(s, r);
    assert f[..|s|] == s;
    assert Records(f)[..n] == Records(s) && Records(f)[n] == r;
    EndOfAll(f);
    Truncated(f, |s|);
    Truncated(f, t);
    var m := |Records(f[..t])|;
    if t < |f| {
      if m < n { EndsAscend(f, m, n); }
      assert m == n;
    } else {
      assert f[..t] == f;
    }
  }

  lemma {:induction false} EndOfAll(s: Bytes)
    ensures EndOf(s, |Records(s)|) == WholeLength(s)
  {
    if ParseOne(s).Some? { EndOfAll(s[ParseOne(s).value.length..]); }
  }

  lemma {:induction false} EndsAscend(s: Bytes, m: nat, n: nat)
    requires m < n <= |Records(s)|
    ensures EndOf(s, m + 1) <= EndOf(s, n)
    decreases n
  {
    if m + 1 < n {
      var rest := s[ParseOne(s).value.length..];
      if m > 0 { EndsAscend(rest, m - 1, n - 1); }
    }
  }

  // ---------------------------------------------------------------- sizes

  /** What one live key takes up on disk. */
  function Cost(k: Bytes, v: Bytes): nat { 8 + |k| + |v| }

  ghost function LiveSize(m: map<Bytes, Bytes>): nat
    decreases |m|
  {
    if m == map[] then 0
    else
      var k :| k in m;
      assert |m - {k}| < |m| by { Shrinks(m, k); }
      Cost(k, m[k]) + LiveSize(m - {k})
  }

  lemma Shrinks(m: map<Bytes, Bytes>, k: Bytes)
    requires k in m
    ensures |m - {k}| == |m| - 1
  {
    assert (m - {k}).Keys == m.Keys - {k};
    assert |(m - {k}).Keys| == |m - {k}| && |m.Keys| == |m|;
  }

  lemma {:induction false} LiveSizeSplits(m: map<Bytes, Bytes>, k: Bytes)
    requires k in m
    ensures LiveSize(m) == Cost(k, m[k]) + LiveSize(m - {k})
    decreases |m|
  {
    var l :| l in m && LiveSize(m) == Cost(l, m[l]) + LiveSize(m - {l});
    if l != k {
      Shrinks(m, l);
      Shrinks(m, k);
      LiveSizeSplits(m - {l}, k);
      LiveSizeSplits(m - {k}, l);
      assert m - {l} - {k} == m - {k} - {l};
    }
  }

  /** Live data never takes more than the log that holds it. */
  lemma {:induction false} LiveFitsLog(rs: seq<Record>)
    ensures LiveSize(Replay(rs)) <= TotalCost(rs)
  {
    if rs != [] {
      var m, r := Replay(rs[..|rs| - 1]), rs[|rs| - 1];
      LiveFitsLog(rs[..|rs| - 1]);
      LiveSizeApply(m, r);
    }
  }

  lemma LiveSizeApply(m: map<Bytes, Bytes>, r: Record)
    ensures LiveSize(m - {r.key}) <= LiveSize(m)
    ensures r.value.Some? ==> LiveSize(Apply(m, r)) == Cost(r.key, r.value.value) + LiveSize(m - {r.key})
  {
    if r.key in m { LiveSizeSplits(m, r.key); } else { assert m - {r.key} == m; }
    if r.value.Some? {
      var m' := m[r.key := r.value.value];
      LiveSizeSplits(m', r.key);
      assert m' - {r.key} == m - {r.key};
    }
  }

  function RecordCost(r: Record): nat { Cost(r.key, if r.value.None? then [] else r.value.value) }

  function TotalCost(rs: seq<Record>): nat {
    if rs == [] then 0 else TotalCost(rs[..|rs| - 1]) + RecordCost(rs[|rs| - 1])
  }

  lemma {:induction false} TotalCostCons(r: Record, rs: seq<Record>)
    ensures TotalCost([r] + rs) == RecordCost(r) + TotalCost(rs)
  {
    if rs == [] {
      assert [r] + rs == [r];
      assert TotalCost([r][..0]) == 0;
    } else {
      var m := |rs| - 1;
      TotalCostCons(r, rs[..m]);
      assert ([r] + rs)[..m + 1] == [r] + rs[..m];
    }
  }

  lemma {:induction false} CostIsLength(s: Bytes)
    ensures TotalCost(Records(s)) == WholeLength(s)
  {
    if ParseOne(s).Some? {
      var p := ParseOne(s).value;
      CostIsLength(s[p.length..]);
      TotalCostCons(p.record, Records(s[p.length..]));
    }
  }

  /** The live size of a whole file never exceeds its disk size. */
  lemma LiveAtMostDisk(s: Bytes)
    requires Whole(s)
    ensures LiveSize(Replay(Records(s))) <= |s|
  {
    CostIsLength(s);
    LiveFitsLog(Records(s));
  }
}
