/** The storage engine of src/storage/bitcask.rs: a log file and an in-memory directory of value locations. */
module Bitcask {
  import opened Common
  import opened Bytes
  import opened Keycode
  import opened BitcaskLog

  /** Where a value lies in the file. */
  datatype Location = Location(offset: nat, length: nat)

  /** The directory lists exactly the keys of `m`, and the file holds their values where it says. */
  ghost predicate Agrees(keydir: map<Bytes, Location>, file: Bytes, m: map<Bytes, Bytes>) {
    && keydir.Keys == m.Keys
    && forall k :: k in keydir ==> Holds(file, keydir[k], m[k])
  }

  ghost predicate Holds(file: Bytes, at: Location, value: Bytes) {
    at.offset + at.length <= |file| && file[at.offset..at.offset + at.length] == value
  }

  lemma AgreesExtends(keydir: map<Bytes, Location>, file: Bytes, longer: Bytes, m: map<Bytes, Bytes>)
    requires Agrees(keydir, file, m) && file <= longer
    ensures Agrees(keydir, longer, m)
  {
    forall k | k in keydir ensures Holds(longer, keydir[k], m[k]) {
      var at := keydir[k];
      assert longer[at.offset..at.offset + at.length] == file[at.offset..at.offset + at.length];
    }
  }

  /** A further record, in a longer file that holds its value, updates directory and map alike. */
  lemma AgreesRecord(keydir: map<Bytes, Location>, file: Bytes, longer: Bytes, m: map<Bytes, Bytes>, r: Record,
    at: Location)
    requires Agrees(keydir, file, m) && file <= longer && (r.value.Some? ==> Holds(longer, at, r.value.value))
    ensures Agrees(if r.value.None? then keydir - {r.key} else keydir[r.key := at], longer, Apply(m, r))
  {
    hide Holds;
    AgreesExtends(keydir, file, longer, m);
  }

  lemma {:induction false} RecordsFit(s: Bytes)
    ensures forall r :: r in Records(s) ==> Fits(r)
  {
    if ParseOne(s).Some? {
      RecordsFit(s[ParseOne(s).value.length..]);
      BigEndianForth(s[..4]);
      BigEndianForth(s[4..8]);
      assert Power(4) == TWO32 by { assert Power(2) == 65536; }
    }
  }

  lemma {:induction false} ReplayFits(rs: seq<Record>)
    requires forall r :: r in rs ==> Fits(r)
    ensures forall k :: k in Replay(rs) ==> Fits(Record(k, Some(Replay(rs)[k])))
  {
    if rs != [] {
      ReplayFits(rs[..|rs| - 1]);
      assert rs[|rs| - 1] in rs;
    }
  }

  lemma ReplaySnoc(rs: seq<Record>, r: Record)
    ensures Replay(rs + [r]) == Apply(Replay(rs), r)
  {
    assert (rs + [r])[..|rs|] == rs;
  }

  /** A record appended to a whole file, and where its value starts. */
  lemma Appended(file: Bytes, keydir: map<Bytes, Location>, r: Record)
    requires Whole(file) && Fits(r) && Agrees(keydir, file, Replay(Records(file)))
    ensures var file' := file + Written(r);
      var at := Location(|file| + 8 + |r.key|, if r.value.None? then 0 else |r.value.value|);
      && Whole(file')
      && Records(file') == Records(file) + [r]
      && |file'| == |file| + RecordCost(r)
      && Replay(Records(file')) == Apply(Replay(Records(file)), r)
      && Agrees(if r.value.None? then keydir - {r.key} else keydir[r.key := at], file', Replay(Records(file')))
  {
    hide Fits, Whole, Records, Replay, Agrees;
    var file' := file + Written(r);
    AppendRecord(file, r);
    ReplaySnoc(Records(file), r);
    var start := |file| + 8 + |r.key|;
    var at := Location(start, if r.value.None? then 0 else |r.value.value|);
    assert file'[start..start + at.length] == if r.value.None? then [] else r.value.value;
    AgreesRecord(keydir, file, file', Replay(Records(file)), r, at);
  }

  class BitCask {
    var file: Bytes
    var keydir: map<Bytes, Location>

    /** The map that the file means. */
    ghost function Contents(): map<Bytes, Bytes>
      reads this
    {
      Replay(Records(file))
    }

    ghost predicate Valid()
      reads this
    {
      Whole(file) && Agrees(keydir, file, Contents())
    }

    /** `new`: reads the whole records of any file, and cuts off an incomplete one at the end. */
    constructor Open(bytes: Bytes)
      ensures Valid()
      ensures Records(file) == Records(bytes) && file == bytes[..WholeLength(bytes)]
    {
      file, keydir := bytes, map[];
      new;
      hide Records, WholeLength, Replay, ParseOne, Agrees, Scanned, Whole;
      StartScan(bytes);
      var offset := 0;
      ghost var done: seq<Record> := [];
      while offset < |file|
        invariant file == bytes && offset <= |bytes|
        invariant Scanned(bytes, offset, done, keydir)
      {
        ghost var p := ParseOne(bytes[offset..]);
        var next := ReadRecord(offset);
        if next.None? {
          file := file[..offset];
          break;
        }
        ScanRecord(bytes, offset, done, keydir);
        var (key, at, end) := next.value;
        keydir := if at.Some? then keydir[key := at.value] else keydir - {key};
        done := done + [p.value.record];
        offset := end;
      }
      FinishScan(bytes, offset, done, keydir);
      assert bytes[..|bytes|] == bytes;
    }

    /** Reads the key and value location of the record at `offset`; none if the file ends inside it. */
    method ReadRecord(offset: nat) returns (r: Option<(Bytes, Option<Location>, nat)>)
      requires offset <= |file|
      ensures r.Some? <==> ParseOne(file[offset..]).Some?
      ensures r.Some? ==>
        var p := ParseOne(file[offset..]).value;
        && r.value.0 == p.record.key
        && r.value.2 == offset + p.length
        && (r.value.1.None? <==> p.record.value.None?)
        && (r.value.1.Some? ==>
             && r.value.1.value.offset == offset + 8 + |p.record.key|
             && r.value.1.value.offset + r.value.1.value.length == r.value.2
             && p.record.value.value == file[offset..][8 + |p.record.key|..p.length])
    {
      ghost var s := file[offset..];
      if offset + 8 > |file| { return None; }
      var keyLen := FromBigEndian(file[offset..offset + 4]);
      var valueLen := FromBigEndian(file[offset + 4..offset + 8]);
      assert s[..4] == file[offset..offset + 4] && s[4..8] == file[offset + 4..offset + 8];
      var start := offset + 8 + keyLen;
      if start > |file| { return None; }
      var key := file[offset + 8..start];
      assert key == s[8..8 + keyLen];
      if valueLen >= TWO31 { return Some((key, None, start)); }
      if start + valueLen > |file| { return None; }
      r := Some((key, Some(Location(start, valueLen)), start + valueLen));
    }

    method Get(key: Bytes) returns (r: Option<Bytes>)
      requires Valid()
      ensures r == if key in Contents() then Some(Contents()[key]) else None
    {
      if key !in keydir { return None; }
      var at := keydir[key];
      assert Holds(file, at, Contents()[key]);
      r := Some(file[at.offset..at.offset + at.length]);
    }

    method Set(key: Bytes, value: Bytes)
      requires Valid() && |key| < TWO32 && |value| < TWO31
      modifies this
      ensures Valid() && Contents() == old(Contents())[key := value]
      ensures file == old(file) + Written(Record(key, Some(value)))
    {
      hide Written, Whole, Records;
      Appended(file, keydir, Record(key, Some(value)));
      keydir := keydir[key := Location(|file| + 8 + |key|, |value|)];
      file := file + Written(Record(key, Some(value)));
    }

    method Delete(key: Bytes)
      requires Valid() && |key| < TWO32
      modifies this
      ensures Valid() && Contents() == old(Contents()) - {key}
      ensures file == old(file) + Written(Record(key, None))
    {
      hide Written, Whole, Records;
      Appended(file, keydir, Record(key, None));
      keydir := keydir - {key};
      file := file + Written(Record(key, None));
    }

    /** Key count, size of live keys and values, file size, and size of live records on disk. */
    method Status() returns (keys: nat, size: nat, diskSize: nat, liveDiskSize: nat)
      requires Valid()
      ensures keys == |Contents()| && diskSize == |file| && size + 8 * keys == liveDiskSize
      ensures liveDiskSize == LiveSize(Contents()) && liveDiskSize <= diskSize
    {
      hide Records, Replay, Whole, LiveSize, Holds;
      LiveAtMostDisk(file);
      ghost var m := Contents();
      SameSize(keydir, m);
      keys, size, diskSize := |keydir|, 0, |file|;
      var todo := keydir.Keys;
      ghost var left := m;
      while todo != {}
        invariant todo <= keydir.Keys && left.Keys == todo && |todo| <= keys
        invariant forall k :: k in left ==> left[k] == m[k]
        invariant size + 8 * (keys - |todo|) + LiveSize(left) == LiveSize(m)
        decreases |todo|
      {
        var k :| k in todo;
        LengthHeld(keydir, file, m, k);
        LiveSizeSplits(left, k);
        left := left - {k};
        size := size + |k| + keydir[k].length;
        todo := todo - {k};
      }
      NothingLive(left);
      liveDiskSize := size + 8 * keys;
    }

    /** Rewrites the live records into a new log; no garbage is left. */
    method Compact()
      requires Valid()
      modifies this
      ensures Valid() && Contents() == old(Contents())
      ensures |file| == LiveSize(Contents())
    {
      hide Written, Whole, Records, Replay, Agrees, LiveSize, Compacted;
      ghost var m := Contents();
      var newFile: Bytes := [];
      var newKeydir: map<Bytes, Location> := map[];
      var todo := keydir.Keys;
      StartCompaction(file, keydir);
      while todo != {}
        invariant todo <= keydir.Keys && keydir == old(keydir) && file == old(file)
        invariant Compacted(m, todo, newFile, newKeydir)
        decreases |todo|
      {
        var k :| k in todo;
        var at := keydir[k];
        CompactRecord(file, keydir, todo, newFile, newKeydir, k);
        var value := file[at.offset..at.offset + at.length];
        newKeydir := newKeydir[k := Location(|newFile| + 8 + |k|, |value|)];
        newFile := newFile + Written(Record(k, Some(value)));
        todo := todo - {k};
      }
      FinishCompaction(m, newFile, newKeydir);
      file, keydir := newFile, newKeydir;
    }
  }

  lemma EmptyFile()
    ensures Whole([]) && Replay(Records([])) == map[]
  {
    NothingParses();
  }

  // ---------------------------------------------------------------- opening

  /** The records up to `offset` have been read, and are what the directory shows. */
  ghost predicate Scanned(bytes: Bytes, offset: nat, done: seq<Record>, keydir: map<Bytes, Location>) {
    && offset <= |bytes|
    && Records(bytes) == done + Records(bytes[offset..])
    && WholeLength(bytes) == offset + WholeLength(bytes[offset..])
    && Agrees(keydir, bytes[..offset], Replay(done))
  }

  lemma StartScan(bytes: Bytes)
    ensures Scanned(bytes, 0, [], map[])
  {
    assert bytes[0..] == bytes && bytes[..0] == [];
  }

  lemma ScanRecord(bytes: Bytes, offset: nat, done: seq<Record>, keydir: map<Bytes, Location>)
    requires Scanned(bytes, offset, done, keydir) && ParseOne(bytes[offset..]).Some?
    ensures var p := ParseOne(bytes[offset..]).value;
      var start := offset + 8 + |p.record.key|;
      var keydir' := if p.record.value.None? then keydir - {p.record.key}
                     else keydir[p.record.key := Location(start, offset + p.length - start)];
      offset + p.length <= |bytes| && start <= offset + p.length
      && Scanned(bytes, offset + p.length, done + [p.record], keydir')
  {
    hide Replay, Records, WholeLength, ParseOne, Agrees;
    var rest := bytes[offset..];
    var p := ParseOne(rest).value;
    var r := p.record;
    var end := offset + p.length;
    ParsedShape(rest);
    ParseSteps(rest);
    assert bytes[end..] == rest[p.length..];
    assert done + ([r] + Records(bytes[end..])) == (done + [r]) + Records(bytes[end..]);
    ReplaySnoc(done, r);
    var start := offset + 8 + |r.key|;
    if r.value.Some? {
      assert r.value.value == rest[8 + |r.key|..p.length] == bytes[..end][start..end];
    }
    AgreesRecord(keydir, bytes[..offset], bytes[..end], Replay(done), r, Location(start, end - start));
  }

  /** Where key and value lie within a parsed record. */
  lemma ParsedShape(s: Bytes)
    requires ParseOne(s).Some?
    ensures var p := ParseOne(s).value;
      && 8 + |p.record.key| <= p.length
      && (p.record.value.Some? ==> p.record.value.value == s[8 + |p.record.key|..p.length])
  {
  }

  /** One unfolding of the reader. */
  lemma ParseSteps(s: Bytes)
    requires ParseOne(s).Some?
    ensures var p := ParseOne(s).value;
      && Records(s) == [p.record] + Records(s[p.length..])
      && WholeLength(s) == p.length + WholeLength(s[p.length..])
  {
  }

  lemma FinishScan(bytes: Bytes, offset: nat, done: seq<Record>, keydir: map<Bytes, Location>)
    requires Scanned(bytes, offset, done, keydir) && (offset == |bytes| || ParseOne(bytes[offset..]).None?)
    ensures var file := bytes[..offset];
      offset == WholeLength(bytes) && Records(file) == Records(bytes) && Whole(file) &&
        Agrees(keydir, file, Replay(Records(file)))
  {
    NothingParses();
    if offset == |bytes| { assert bytes[offset..] == []; }
    RecoveredIsWhole(bytes);
    assert done + [] == done;
  }

  // ---------------------------------------------------------------- status

  lemma SameSize(keydir: map<Bytes, Location>, m: map<Bytes, Bytes>)
    requires keydir.Keys == m.Keys
    ensures |keydir| == |m| && |keydir| == |keydir.Keys|
  {
    assert |m.Keys| == |m| && |keydir.Keys| == |keydir|;
  }

  lemma LengthHeld(keydir: map<Bytes, Location>, file: Bytes, m: map<Bytes, Bytes>, k: Bytes)
    requires Agrees(keydir, file, m) && k in keydir
    ensures keydir[k].length == |m[k]|
  {
    assert Holds(file, keydir[k], m[k]);
  }

  lemma NothingLive(m: map<Bytes, Bytes>)
    requires m.Keys == {}
    ensures LiveSize(m) == 0
  {
    assert m == map[];
  }

  // ---------------------------------------------------------------- compaction

  /** The new log holds the live records of all keys but `todo`, and nothing else. */
  ghost predicate Compacted(m: map<Bytes, Bytes>, todo: set<Bytes>, file: Bytes, keydir: map<Bytes, Location>) {
    && Whole(file)
    && Replay(Records(file)) == m - todo
    && Agrees(keydir, file, m - todo)
    && |file| == LiveSize(m - todo)
  }

  lemma StartCompaction(file: Bytes, keydir: map<Bytes, Location>)
    requires Agrees(keydir, file, Replay(Records(file)))
    ensures Compacted(Replay(Records(file)), keydir.Keys, [], map[])
  {
    hide Records, Replay;
    EmptyFile();
    var m := Replay(Records(file));
    assert m - keydir.Keys == map[];
  }

  lemma AgreesAt(keydir: map<Bytes, Location>, file: Bytes, m: map<Bytes, Bytes>, k: Bytes)
    requires Agrees(keydir, file, m) && k in keydir
    ensures k in m && Holds(file, keydir[k], m[k])
  {}

  lemma CompactRecord(file: Bytes, keydir: map<Bytes, Location>, todo: set<Bytes>, newFile: Bytes,
    newKeydir: map<Bytes, Location>, k: Bytes)
    requires Agrees(keydir, file, Replay(Records(file))) && k in todo && todo <= keydir.Keys
    requires Compacted(Replay(Records(file)), todo, newFile, newKeydir)
    ensures var at := keydir[k];
      && at.offset + at.length <= |file|
      && var value := file[at.offset..at.offset + at.length];
         Compacted(Replay(Records(file)), todo - {k}, newFile + Written(Record(k, Some(value))),
                   newKeydir[k := Location(|newFile| + 8 + |k|, |value|)])
  {
    hide Records, Replay, Whole, Written, LiveSize, Fits, Agrees;
    var m := Replay(Records(file));
    AgreesAt(keydir, file, m, k);
    var r := Record(k, Some(m[k]));
    LiveFits(file, k);
    Appended(newFile, newKeydir, r);
    LiveSizeApply(m - todo, r);
    assert m - todo - {k} == m - todo;
    assert (m - todo)[k := m[k]] == m - (todo - {k});
  }

  lemma LiveFits(file: Bytes, k: Bytes)
    requires k in Replay(Records(file))
    ensures Fits(Record(k, Some(Replay(Records(file))[k])))
  {
    RecordsFit(file);
    ReplayFits(Records(file));
  }

  lemma FinishCompaction(m: map<Bytes, Bytes>, file: Bytes, keydir: map<Bytes, Location>)
    requires Compacted(m, {}, file, keydir)
    ensures Whole(file) && Replay(Records(file)) == m && Agrees(keydir, file, m) && |file| == LiveSize(m)
  {
    assert m - {} == m;
  }

  /** Reopening a file cut at any byte gives the map after the longest whole prefix of its records. */
  method Reopen(bytes: Bytes, t: nat) returns (b: BitCask)
    requires t <= |bytes|
    ensures b.Valid()
    ensures var n := |Records(bytes[..t])|;
      && n <= |Records(bytes)|
      && b.Contents() == Replay(Records(bytes)[..n])
      && EndOf(bytes, n) <= t
      && (n < |Records(bytes)| ==> t < EndOf(bytes, n + 1))
  {
    Truncated(bytes, t);
    b := new BitCask.Open(bytes[..t]);
  }

  // ---------------------------------------------------------------- runs

  datatype Op = SetOp(key: Bytes, value: Bytes) | DeleteOp(key: Bytes) | CompactOp

  predicate OpFits(op: Op) {
    op.CompactOp? || (|op.key| < TWO32 && (op.SetOp? ==> |op.value| < TWO31))
  }

  /** What the operations do to a plain map: compaction does nothing. */
  function Meaning(ops: seq<Op>): map<Bytes, Bytes> {
    if ops == [] then map[] else Updated(Meaning(ops[..|ops| - 1]), ops[|ops| - 1])
  }

  function Updated(m: map<Bytes, Bytes>, op: Op): map<Bytes, Bytes> {
    match op
    case SetOp(k, v) => m[k := v]
    case DeleteOp(k) => m - {k}
    case CompactOp => m
  }

  method Perform(b: BitCask, op: Op)
    requires b.Valid() && OpFits(op)
    modifies b
    ensures b.Valid() && b.Contents() == Updated(old(b.Contents()), op)
    ensures op.CompactOp? ==> |b.file| == LiveSize(b.Contents())
  {
    hide Records, Replay, Whole, Agrees, Written, LiveSize;
    match op {
      case SetOp(k, v) => b.Set(k, v);
      case DeleteOp(k) => b.Delete(k);
      case CompactOp => b.Compact();
    }
  }

  /** Any run of operations on an empty store leaves the plain map, in the directory and in the file's own bytes. */
  method Execute(ops: seq<Op>) returns (b: BitCask)
    requires forall op :: op in ops ==> OpFits(op)
    ensures b.Valid() && b.Contents() == Meaning(ops)
    ensures Replay(Records(b.file)) == Meaning(ops) && LiveSize(Meaning(ops)) <= |b.file|
    ensures ops != [] && ops[|ops| - 1].CompactOp? ==> |b.file| == LiveSize(Meaning(ops))
  {
    hide Records, Replay, Whole, WholeLength, Agrees, Written, LiveSize, Updated;
    b := new BitCask.Open([]);
    EmptyFile();
    var i := 0;
    while i < |ops|
      invariant 0 <= i <= |ops| && fresh(b)
      invariant b.Valid() && b.Contents() == Meaning(ops[..i])
      invariant i > 0 && ops[i - 1].CompactOp? ==> |b.file| == LiveSize(b.Contents())
    {
      assert ops[i] in ops && ops[..i + 1][..i] == ops[..i];
      Perform(b, ops[i]);
      i := i + 1;
    }
    assert ops[..|ops|] == ops;
    LiveAtMostDisk(b.file);
  }
}
