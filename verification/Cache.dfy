/**
 * The bounded cache of src/cache/cache.rs: a doubly linked list threaded through a hash map,
 * most recent end first.
 */
module Cache {
  import opened Common
  import opened Bytes

  type Key = nat

  datatype Eviction = LRU | FIFO

  datatype CacheEntry = CacheEntry(value: string, prev: Option<Key>, next: Option<Key>)

  predicate Distinct(s: seq<Key>) { forall i, j :: 0 <= i < j < |s| ==> s[i] != s[j] }

  /** The neighbours that position `i` should be linked to. */
  function PrevAt(order: seq<Key>, i: int): Option<Key> { if 0 < i <= |order| then Some(order[i - 1]) else None }

  function NextAt(order: seq<Key>, i: int): Option<Key> { if -1 <= i < |order| - 1 then Some(order[i + 1]) else None }

  ghost predicate LinkedAt(entries: map<Key, CacheEntry>, order: seq<Key>, i: int)
    requires 0 <= i < |order|
  {
    && order[i] in entries
    && entries[order[i]].prev == PrevAt(order, i)
    && entries[order[i]].next == NextAt(order, i)
  }

  /** The links traverse exactly `order`, forwards from the head by `next` and backwards from the tail by `prev`. */
  ghost predicate Linked(entries: map<Key, CacheEntry>, head: Option<Key>, tail: Option<Key>, order: seq<Key>) {
    && Distinct(order)
    && head == NextAt(order, -1)
    && tail == PrevAt(order, |order|)
    && forall i :: 0 <= i < |order| ==> LinkedAt(entries, order, i)
  }

  function Without(s: seq<Key>, k: Key): seq<Key> {
    if s == [] then []
    else if s[0] == k then Without(s[1..], k)
    else [s[0]] + Without(s[1..], k)
  }

  lemma {:induction false} WithoutMembers(s: seq<Key>, k: Key)
    ensures forall x :: x in Without(s, k) <==> x in s && x != k
    ensures Distinct(s) ==> Distinct(Without(s, k))
    ensures k !in s ==> Without(s, k) == s
  {
    if s != [] {
      assert s == [s[0]] + s[1..];
      WithoutMembers(s[1..], k);
      assert Distinct(s) ==> s[0] !in s[1..] && s[0] !in Without(s[1..], k);
    }
  }

  lemma {:induction false} WithoutAt(s: seq<Key>, i: nat)
    requires Distinct(s) && i < |s|
    ensures Without(s, s[i]) == s[..i] + s[i + 1..]
  {
    if i == 0 {
      WithoutMembers(s[1..], s[0]);
      assert s[..0] + s[1..] == s[1..];
    } else {
      WithoutAt(s[1..], i - 1);
      assert s[..i] + s[i + 1..] == [s[0]] + (s[1..][..i - 1] + s[1..][i..]);
    }
  }

  function Contains(order: seq<Key>): set<Key> { set k | k in order }

  /** Relinking the neighbours of position `i` takes it out of the list and leaves the rest in order. */
  lemma DetachLinks(entries: map<Key, CacheEntry>, head: Option<Key>, tail: Option<Key>, order: seq<Key>, i: nat,
                    mid: map<Key, CacheEntry>, last: map<Key, CacheEntry>)
    requires Linked(entries, head, tail, order) && i < |order|
    requires var p, n := PrevAt(order, i), NextAt(order, i);
      && (p.Some? ==> p.value in entries)
      && mid == (if p.Some? then entries[p.value := entries[p.value].(next := n)] else entries)
      && (n.Some? ==> n.value in mid)
      && last == if n.Some? then mid[n.value := mid[n.value].(prev := p)] else mid
    ensures var p, n := PrevAt(order, i), NextAt(order, i);
      Linked(last, if p.Some? then head else n, if n.Some? then tail else p, order[..i] + order[i + 1..])
  {
    var rest := order[..i] + order[i + 1..];
    forall j | 0 <= j < |rest| ensures LinkedAt(last, rest, j) {
      var o := if j < i then j else j + 1;
      assert rest[j] == order[o] && LinkedAt(entries, order, o);
      assert j + 1 < |rest| ==> rest[j + 1] == order[if j + 1 < i then j + 1 else j + 2];
      assert j > 0 ==> rest[j - 1] == order[if j - 1 < i then j - 1 else j];
      assert i > 0 ==> PrevAt(order, i) == Some(order[i - 1]);
    }
  }

  lemma AttachLinks(entries: map<Key, CacheEntry>, head: Option<Key>, tail: Option<Key>, order: seq<Key>, k: Key,
                    mid: map<Key, CacheEntry>, last: map<Key, CacheEntry>)
    requires Linked(entries, head, tail, order) && k in entries && k !in order
    requires mid == entries[k := entries[k].(prev := None, next := head)]
    requires head.Some? ==> head.value in mid
    requires last == if head.Some? then mid[head.value := mid[head.value].(prev := Some(k))] else mid
    ensures Linked(last, Some(k), if head.Some? then tail else Some(k), [k] + order)
  {
    var longer := [k] + order;
    forall j | 0 <= j < |longer| ensures LinkedAt(last, longer, j) {
      if j > 0 {
        assert longer[j] == order[j - 1] && LinkedAt(entries, order, j - 1);
        assert j + 1 < |longer| ==> longer[j + 1] == order[j];
        assert j > 1 ==> longer[j - 1] == order[j - 2];
      } else {
        assert order != [] ==> longer[1] == order[0];
      }
    }
  }

  class Cache {
    var entries: map<Key, CacheEntry>
    var head: Option<Key>
    var tail: Option<Key>
    var hits: nat
    var misses: nat
    ghost var order: seq<Key>

    ghost predicate Valid()
      reads this
    {
      Linked(entries, head, tail, order) && entries.Keys == Contains(order)
    }

    function Values(): map<Key, string>
      reads this
    {
      map k | k in entries :: entries[k].value
    }

    constructor ()
      ensures Valid() && order == [] && Values() == map[] && hits == 0 && misses == 0
    {
      entries, head, tail, hits, misses, order := map[], None, None, 0, 0, [];
    }

    method Detach(key: Key)
      requires Linked(entries, head, tail, order) && key in order
      modifies this`entries, this`head, this`tail, this`order
      ensures order == Without(old(order), key) && key !in order
      ensures Linked(entries, head, tail, order) && entries.Keys == old(entries).Keys && Values() == old(Values())
    {
      ghost var i :| 0 <= i < |order| && order[i] == key;
      assert LinkedAt(entries, order, i);
      assert i > 0 ==> LinkedAt(entries, order, i - 1);
      assert i + 1 < |order| ==> LinkedAt(entries, order, i + 1);
      var prev, next := entries[key].prev, entries[key].next;
      if prev.Some? {
        entries := entries[prev.value := entries[prev.value].(next := next)];
      } else {
        head := next;
      }
      ghost var mid := entries;
      if next.Some? {
        entries := entries[next.value := entries[next.value].(prev := prev)];
      } else {
        tail := prev;
      }
      hide Linked, Without;
      DetachLinks(old(entries), old(head), old(tail), order, i, mid, entries);
      RemovesAt(old(entries), old(head), old(tail), order, i);
      order := order[..i] + order[i + 1..];
    }

    method AttachToFront(key: Key)
      requires Linked(entries, head, tail, order) && key in entries && key !in order
      modifies this`entries, this`head, this`tail, this`order
      ensures order == [key] + old(order)
      ensures Linked(entries, head, tail, order) && entries.Keys == old(entries).Keys && Values() == old(Values())
    {
      assert order != [] ==> LinkedAt(entries, order, 0);
      var oldHead := head;
      entries := entries[key := entries[key].(prev := None, next := oldHead)];
      ghost var mid := entries;
      if oldHead.Some? {
        entries := entries[oldHead.value := entries[oldHead.value].(prev := Some(key))];
      } else {
        tail := Some(key);
      }
      head := Some(key);
      hide Linked;
      AttachLinks(old(entries), old(head), old(tail), order, key, mid, entries);
      order := [key] + order;
    }

    /** Moves a cached key to the front. */
    method Touch(key: Key)
      requires Valid() && key in entries
      modifies this`entries, this`head, this`tail, this`order
      ensures Valid() && order == [key] + Without(old(order), key) && Values() == old(Values())
    {
      hide Linked, Without;
      Detach(key);
      AttachToFront(key);
      WithoutMembers(old(order), key);
    }

    method PopTail() returns (r: Option<Key>)
      requires Linked(entries, head, tail, order)
      modifies this`entries, this`head, this`tail, this`order
      ensures old(order) == [] ==> r.None? && order == []
      ensures old(order) != [] ==> r == Some(old(order)[|old(order)| - 1]) && order == old(order)[..|old(order)| - 1]
      ensures Linked(entries, head, tail, order) && entries.Keys == old(entries).Keys && Values() == old(Values())
    {
      if tail.None? { return None; }
      var key := tail.value;
      ghost var n := |order| - 1;
      WithoutAt(order, n);
      assert order[..n] + order[n + 1..] == order[..n];
      Detach(key);
      r := Some(key);
    }

    /** Adds or replaces a value, and evicts at most one entry when the bound is exceeded. */
    method Insert(key: Key, value: string, policy: Eviction, maxSize: nat)
      requires Valid()
      modifies this`entries, this`head, this`tail, this`order
      ensures Valid()
      ensures order == Inserted(old(order), key, policy, maxSize)
      ensures Values() == Restricted(old(Values())[key := value], order)
    {
      hide Linked, Without, Restricted;
      InOrder(entries, order, key);
      if key in entries {
        Replace(key, value);
        if policy == LRU { Touch(key); }
        SameKeys(old(order), order, key, policy);
        AllKept(Values(), order);
        return;
      }
      InsertFront(key, value);
      LinkedSize(entries, head, tail, order);
      if |entries| > maxSize { Evict(); } else { AllKept(Values(), order); }
    }

    method Replace(key: Key, value: string)
      requires Valid() && key in entries
      modifies this`entries
      ensures Valid() && Values() == old(Values())[key := value]
    {
      hide Linked;
      LinkedIgnoresValues(entries, head, tail, order, key, value);
      entries := entries[key := entries[key].(value := value)];
    }

    method InsertFront(key: Key, value: string)
      requires Valid() && key !in entries
      modifies this`entries, this`head, this`tail, this`order
      ensures Valid() && order == [key] + old(order) && Values() == old(Values())[key := value]
    {
      hide Linked;
      InOrder(entries, order, key);
      LinkedIgnoresOthers(entries, head, tail, order, key, CacheEntry(value, None, None));
      entries := entries[key := CacheEntry(value, None, None)];
      AttachToFront(key);
    }

    /** Drops the entry at the tail. */
    method Evict()
      requires Valid() && order != []
      modifies this`entries, this`head, this`tail, this`order
      ensures Valid() && order == old(order)[..|old(order)| - 1]
      ensures Values() == Restricted(old(Values()), order)
    {
      LastLeaves(order);
      hide Linked;
      var victim := PopTail();
      if victim.Some? {
        LinkedWithout(entries, head, tail, order, victim.value);
        entries := entries - {victim.value};
      }
    }

    /** Looks up one key; a hit moves to the front under LRU. */
    method LookUp(key: Key, policy: Eviction) returns (hit: bool)
      requires Valid()
      modifies this
      ensures Valid() && Values() == old(Values())
      ensures hit <==> key in old(Values())
      ensures order == if hit && policy == LRU then [key] + Without(old(order), key) else old(order)
      ensures hits == old(hits) + (if hit then 1 else 0) && misses == old(misses) + (if hit then 0 else 1)
    {
      hide Linked, Without;
      hit := key in entries;
      if hit {
        hits := hits + 1;
        if policy == LRU { Touch(key); }
      } else {
        misses := misses + 1;
      }
    }

    /** Which of the keys are not cached; hits move to the front under LRU, in the order the set is visited. */
    method FilterUncached(keys: set<Key>, policy: Eviction) returns (uncached: seq<Key>, ghost visited: seq<Key>)
      requires Valid()
      modifies this
      ensures Valid() && Values() == old(Values())
      ensures Distinct(uncached) && Contains(uncached) == keys - old(Values()).Keys
      ensures Distinct(visited) && Contains(visited) == keys * old(Values()).Keys
      ensures order == if policy == LRU then TouchedAll(old(order), visited) else old(order)
      ensures hits == old(hits) + |visited| && misses == old(misses) + |uncached|
    {
      hide Valid, Values, Without, Distinct, Contains, Partitioned;
      ghost var had := Values().Keys;
      StartPartition(keys, had);
      uncached, visited := [], [];
      var todo := keys;
      while todo != {}
        invariant Valid() && Values() == old(Values()) && todo <= keys
        invariant Partitioned(keys - todo, had, uncached, visited)
        invariant order == if policy == LRU then TouchedAll(old(order), visited) else old(order)
        invariant hits == old(hits) + |visited| && misses == old(misses) + |uncached|
        decreases |todo|
      {
        var key :| key in todo;
        PartitionKey(keys - todo, had, uncached, visited, key);
        assert keys - (todo - {key}) == keys - todo + {key};
        assert (visited + [key])[..|visited|] == visited;
        var hit := LookUp(key, policy);
        if hit {
          visited := visited + [key];
        } else {
          uncached := uncached + [key];
        }
        todo := todo - {key};
      }
      FinishPartition(keys, had, uncached, visited);
      assert keys - todo == keys;
    }
  }

  /** The keys looked up so far, split into those that were cached and those that were not. */
  ghost predicate Partitioned(keys: set<Key>, had: set<Key>, uncached: seq<Key>, visited: seq<Key>) {
    && Distinct(uncached) && Contains(uncached) == keys - had
    && Distinct(visited) && Contains(visited) == keys * had
  }

  lemma StartPartition(keys: set<Key>, had: set<Key>)
    ensures Partitioned(keys - keys, had, [], [])
  {
  }

  lemma PartitionKey(keys: set<Key>, had: set<Key>, uncached: seq<Key>, visited: seq<Key>, k: Key)
    requires Partitioned(keys, had, uncached, visited) && k !in keys
    ensures k in had ==> Partitioned(keys + {k}, had, uncached, visited + [k])
    ensures k !in had ==> Partitioned(keys + {k}, had, uncached + [k], visited)
  {
    AddsDistinct(visited, k);
    AddsDistinct(uncached, k);
  }

  lemma FinishPartition(keys: set<Key>, had: set<Key>, uncached: seq<Key>, visited: seq<Key>)
    ensures Partitioned(keys, had, uncached, visited) ==>
      Distinct(uncached) && Contains(uncached) == keys - had && Distinct(visited) && Contains(visited) == keys * had
  {
  }

  // ---------------------------------------------------------------- order of keys

  /** The order after inserting a key. */
  function Inserted(order: seq<Key>, k: Key, policy: Eviction, maxSize: nat): seq<Key> {
    if k in order then (if policy == LRU then [k] + Without(order, k) else order)
    else if |order| + 1 > maxSize then ([k] + order)[..|order|]
    else [k] + order
  }

  function Restricted(m: map<Key, string>, order: seq<Key>): map<Key, string> {
    map k | k in m && k in order :: m[k]
  }

  function TouchedAll(order: seq<Key>, visited: seq<Key>): seq<Key> {
    if visited == [] then order
    else [visited[|visited| - 1]] + Without(TouchedAll(order, visited[..|visited| - 1]), visited[|visited| - 1])
  }

  lemma RemovesAt(entries: map<Key, CacheEntry>, head: Option<Key>, tail: Option<Key>, order: seq<Key>, i: nat)
    requires Linked(entries, head, tail, order) && i < |order|
    ensures order[..i] + order[i + 1..] == Without(order, order[i]) && order[i] !in order[..i] + order[i + 1..]
  {
    WithoutAt(order, i);
    WithoutMembers(order, order[i]);
  }

  lemma LinkedIgnoresValues(entries: map<Key, CacheEntry>, head: Option<Key>, tail: Option<Key>, order: seq<Key>,
    k: Key, value: string)
    requires Linked(entries, head, tail, order) && k in entries
    ensures Linked(entries[k := entries[k].(value := value)], head, tail, order)
  {
    var entries' := entries[k := entries[k].(value := value)];
    forall i | 0 <= i < |order| ensures LinkedAt(entries', order, i) { assert LinkedAt(entries, order, i); }
  }

  lemma LinkedIgnoresOthers(entries: map<Key, CacheEntry>, head: Option<Key>, tail: Option<Key>, order: seq<Key>,
    k: Key, e: CacheEntry)
    requires Linked(entries, head, tail, order) && k !in order
    ensures Linked(entries[k := e], head, tail, order)
  {
    var entries' := entries[k := e];
    forall i | 0 <= i < |order| ensures LinkedAt(entries', order, i) { assert LinkedAt(entries, order, i); }
  }

  lemma LinkedWithout(entries: map<Key, CacheEntry>, head: Option<Key>, tail: Option<Key>, order: seq<Key>, k: Key)
    requires Linked(entries, head, tail, order) && k !in order
    ensures Linked(entries - {k}, head, tail, order)
  {
    var entries' := entries - {k};
    forall i | 0 <= i < |order| ensures LinkedAt(entries', order, i) { assert LinkedAt(entries, order, i); }
  }

  lemma {:induction false} DistinctSize(s: seq<Key>)
    requires Distinct(s)
    ensures |Contains(s)| == |s|
  {
    if s != [] {
      var m := |s| - 1;
      DistinctSize(s[..m]);
      assert Contains(s) == Contains(s[..m]) + {s[m]};
    }
  }

  lemma LinkedSize(entries: map<Key, CacheEntry>, head: Option<Key>, tail: Option<Key>, order: seq<Key>)
    requires Linked(entries, head, tail, order) && entries.Keys == Contains(order)
    ensures |entries| == |order|
  {
    DistinctSize(order);
    assert |entries.Keys| == |entries|;
  }

  lemma InOrder(entries: map<Key, CacheEntry>, order: seq<Key>, k: Key)
    requires entries.Keys == Contains(order)
    ensures k in entries <==> k in order
  {
  }

  lemma SameKeys(before: seq<Key>, after: seq<Key>, k: Key, policy: Eviction)
    requires k in before && after == if policy == LRU then [k] + Without(before, k) else before
    ensures Contains(after) == Contains(before)
  {
    WithoutMembers(before, k);
  }

  lemma AllKept(m: map<Key, string>, order: seq<Key>)
    requires m.Keys == Contains(order)
    ensures Restricted(m, order) == m
  {
  }

  lemma AddsDistinct(s: seq<Key>, k: Key)
    ensures Contains(s + [k]) == Contains(s) + {k} && (s + [k])[..|s|] == s
    ensures Distinct(s) && k !in Contains(s) ==> Distinct(s + [k])
  {
  }

  lemma LastLeaves(order: seq<Key>)
    requires Distinct(order) && order != []
    ensures var m := |order| - 1; Contains(order[..m]) == Contains(order) - {order[m]} && order[m] !in order[..m]
  {
  }

  // ---------------------------------------------------------------- access traces

  /** One lookup, with an insert if it misses. */
  function Accessed(order: seq<Key>, k: Key, policy: Eviction, maxSize: nat): seq<Key> {
    if k in order then (if policy == LRU then [k] + Without(order, k) else order)
    else Inserted(order, k, policy, maxSize)
  }

  function AfterTrace(trace: seq<Key>, policy: Eviction, maxSize: nat): seq<Key> {
    if trace == [] then []
    else Accessed(AfterTrace(trace[..|trace| - 1], policy, maxSize), trace[|trace| - 1], policy, maxSize)
  }

  /** All keys of a trace, most recently accessed first. */
  function Recent(trace: seq<Key>): seq<Key> {
    if trace == [] then []
    else [trace[|trace| - 1]] + Without(Recent(trace[..|trace| - 1]), trace[|trace| - 1])
  }

  function Take(s: seq<Key>, n: nat): seq<Key> { if |s| <= n then s else s[..n] }

  lemma {:induction false} RecentDistinct(trace: seq<Key>)
    ensures Distinct(Recent(trace)) && forall k :: k in Recent(trace) <==> k in trace
  {
    if trace != [] {
      var m := |trace| - 1;
      assert trace == trace[..m] + [trace[m]];
      RecentDistinct(trace[..m]);
      WithoutMembers(Recent(trace[..m]), trace[m]);
    }
  }

  /** A hit in the first `n` moves to the front of them. */
  lemma TakeHit(s: seq<Key>, k: Key, n: nat)
    requires Distinct(s) && k in Take(s, n)
    ensures [k] + Without(Take(s, n), k) == Take([k] + Without(s, k), n)
  {
    var t := Take(s, n);
    var i :| 0 <= i < |t| && t[i] == k;
    WithoutAt(s, i);
    WithoutAt(t, i);
    hide Without, Distinct;
    assert t == s[..|t|];
    CutFront(s, i, |t|);
  }

  lemma CutFront(s: seq<Key>, i: nat, m: nat)
    requires i < m <= |s|
    ensures [s[i]] + (s[..m][..i] + s[..m][i + 1..]) == ([s[i]] + (s[..i] + s[i + 1..]))[..m]
  {
  }

  /** A miss in the first `n` pushes the last of them out. */
  lemma TakeMiss(s: seq<Key>, k: Key, n: nat)
    requires Distinct(s) && k !in Take(s, n)
    ensures Take([k] + Take(s, n), n) == Take([k] + Without(s, k), n)
  {
    if k in s {
      var i :| 0 <= i < |s| && s[i] == k;
      WithoutAt(s, i);
      assert |s| > n;
      assert forall j :: 0 <= j < n ==> s[j] in Take(s, n);
      hide Without, Distinct;
      var l, r := [k] + s[..n], [k] + (s[..i] + s[i + 1..]);
      assert l[..n] == r[..n];
    } else {
      WithoutMembers(s, k);
    }
  }

  /** The LRU stack property: a cache of any size holds the most recently accessed distinct keys, in order. */
  lemma {:induction false} LruIsMostRecent(trace: seq<Key>, n: nat)
    ensures AfterTrace(trace, LRU, n) == Take(Recent(trace), n)
  {
    if trace != [] {
      var m := |trace| - 1;
      var k := trace[m];
      var s := Recent(trace[..m]);
      LruIsMostRecent(trace[..m], n);
      RecentDistinct(trace[..m]);
      if k in Take(s, n) { TakeHit(s, k, n); } else { TakeMiss(s, k, n); }
      assert k !in Take(s, n) ==> Inserted(Take(s, n), k, LRU, n) == Take([k] + Take(s, n), n);
    }
  }

  /** A larger LRU cache contains every smaller one, as its front. */
  lemma LruInclusion(trace: seq<Key>, n: nat, m: nat)
    requires n <= m
    ensures AfterTrace(trace, LRU, n) <= AfterTrace(trace, LRU, m)
  {
    LruIsMostRecent(trace, n);
    LruIsMostRecent(trace, m);
  }

  /** The keys that missed, in order. */
  function Missed(trace: seq<Key>, n: nat): seq<Key> {
    if trace == [] then []
    else
      var m := |trace| - 1;
      Missed(trace[..m], n) + if trace[m] in AfterTrace(trace[..m], FIFO, n) then [] else [trace[m]]
  }

  function Reversed(s: seq<Key>): seq<Key> {
    if s == [] then [] else [s[|s| - 1]] + Reversed(s[..|s| - 1])
  }

  /** Under FIFO the list is the latest insertions, newest first, whatever was looked up since. */
  lemma {:induction false} FifoIsInsertionOrder(trace: seq<Key>, n: nat)
    ensures AfterTrace(trace, FIFO, n) == Take(Reversed(Missed(trace, n)), n)
  {
    if trace != [] {
      var m := |trace| - 1;
      FifoIsInsertionOrder(trace[..m], n);
      var missed := Missed(trace[..m], n);
      var order := AfterTrace(trace[..m], FIFO, n);
      if trace[m] !in order {
        assert (missed + [trace[m]])[..|missed|] == missed;
        assert Reversed(missed + [trace[m]]) == [trace[m]] + Reversed(missed);
        assert Inserted(order, trace[m], FIFO, n) == Take([trace[m]] + Reversed(missed), n);
      } else {
        assert missed + [] == missed;
      }
    }
  }

  // ---------------------------------------------------------------- traversals

  /** Follows `next` links from a key, for at most `n` steps. */
  function Forward(entries: map<Key, CacheEntry>, at: Option<Key>, n: nat): seq<Key>
    decreases n
  {
    if n == 0 || at.None? || at.value !in entries then []
    else [at.value] + Forward(entries, entries[at.value].next, n - 1)
  }

  /** Follows `prev` links. */
  function Backward(entries: map<Key, CacheEntry>, at: Option<Key>, n: nat): seq<Key>
    decreases n
  {
    if n == 0 || at.None? || at.value !in entries then []
    else [at.value] + Backward(entries, entries[at.value].prev, n - 1)
  }

  lemma {:induction false} ForwardFrom(entries: map<Key, CacheEntry>, head: Option<Key>, tail: Option<Key>,
    order: seq<Key>, i: nat, n: nat)
    requires Linked(entries, head, tail, order) && i <= |order| && n >= |order| - i
    ensures Forward(entries, NextAt(order, i - 1), n) == order[i..]
    decreases n
  {
    if i < |order| {
      assert LinkedAt(entries, order, i);
      ForwardFrom(entries, head, tail, order, i + 1, n - 1);
    }
  }

  lemma {:induction false} BackwardFrom(entries: map<Key, CacheEntry>, head: Option<Key>, tail: Option<Key>,
    order: seq<Key>, i: nat, n: nat)
    requires Linked(entries, head, tail, order) && i <= |order| && n >= i
    ensures Backward(entries, PrevAt(order, i), n) == Reversed(order[..i])
    decreases n
  {
    if i > 0 {
      assert LinkedAt(entries, order, i - 1);
      BackwardFrom(entries, head, tail, order, i - 1, n - 1);
      assert order[..i][..i - 1] == order[..i - 1];
    }
  }

  /** Both directions end, and visit exactly the map's keys, once each, in opposite orders. */
  lemma LinksTraverse(entries: map<Key, CacheEntry>, head: Option<Key>, tail: Option<Key>, order: seq<Key>, n: nat)
    requires Linked(entries, head, tail, order) && entries.Keys == Contains(order) && n >= |entries|
    ensures var forwards := Forward(entries, head, n);
      && Distinct(forwards) && Contains(forwards) == entries.Keys
      && Backward(entries, tail, n) == Reversed(forwards)
  {
    LinkedSize(entries, head, tail, order);
    ForwardFrom(entries, head, tail, order, 0, n);
    BackwardFrom(entries, head, tail, order, |order|, n);
    assert order[..|order|] == order;
  }

  // ---------------------------------------------------------------- the workload

  /** Inserting is an access: it does to a cached key what a hit does. */
  lemma InsertIsAccess(past: seq<Key>, k: Key, policy: Eviction, maxSize: nat)
    ensures AfterTrace(past + [k], policy, maxSize) == Inserted(AfterTrace(past, policy, maxSize), k, policy, maxSize)
  {
    assert (past + [k])[..|past|] == past;
  }

  /** Hits on cached keys are accesses of a trace. */
  lemma {:induction false} HitsAreAccesses(past: seq<Key>, visited: seq<Key>, policy: Eviction, maxSize: nat)
    requires forall k :: k in visited ==> k in AfterTrace(past, policy, maxSize)
    ensures var order := AfterTrace(past, policy, maxSize);
      var now := if policy == LRU then TouchedAll(order, visited) else order;
      && AfterTrace(past + visited, policy, maxSize) == now
      && forall k :: k in order ==> k in now
  {
    hide AfterTrace, TouchedAll, Without;
    var order := AfterTrace(past, policy, maxSize);
    TouchedNext(order, visited);
    if visited == [] {
      assert past + visited == past;
    } else {
      var m := |visited| - 1;
      var k := visited[m];
      assert k in visited && forall x :: x in visited[..m] ==> x in visited;
      HitsAreAccesses(past, visited[..m], policy, maxSize);
      InsertIsAccess(past + visited[..m], k, policy, maxSize);
      assert past + visited == past + visited[..m] + [k];
      WithoutMembers(TouchedAll(order, visited[..m]), k);
    }
  }

  lemma TouchedNext(order: seq<Key>, visited: seq<Key>)
    ensures visited == [] ==> TouchedAll(order, visited) == order
    ensures visited != [] ==>
      var m := |visited| - 1;
      TouchedAll(order, visited) == [visited[m]] + Without(TouchedAll(order, visited[..m]), visited[m])
  {}

  /** The hits of a batch come first, and the counters tell them from the misses. */
  lemma BatchCounts(keys: set<Key>, had: set<Key>, visited: seq<Key>, uncached: seq<Key>, rows: seq<Key>)
    requires Distinct(visited) && Contains(visited) == keys * had
    requires Distinct(uncached) && Contains(uncached) == keys - had
    requires Distinct(rows) && Contains(rows) == Contains(uncached)
    ensures |visited| == |keys * had| && |uncached| == |keys| - |keys * had|
    ensures var trace := visited + rows;
      && Distinct(trace) && Contains(trace) == keys
      && forall i :: 0 <= i < |trace| ==> (trace[i] in had <==> i < |visited|)
  {
    hide Distinct, Contains;
    Concatenated(visited, rows);
    DistinctSize(visited);
    DistinctSize(uncached);
    assert keys == keys * had + (keys - had);
    forall i | 0 <= i < |visited + rows| ensures (visited + rows)[i] in had <==> i < |visited| {
      assert (visited + rows)[i] in keys by { Within(visited + rows, i); }
    }
  }

  lemma Within(s: seq<Key>, i: nat)
    requires i < |s|
    ensures s[i] in Contains(s)
  {}

  lemma Concatenated(a: seq<Key>, b: seq<Key>)
    requires Distinct(a) && Distinct(b) && Contains(a) !! Contains(b)
    ensures Distinct(a + b) && Contains(a + b) == Contains(a) + Contains(b)
    ensures forall i :: 0 <= i < |a + b| ==> ((a + b)[i] in Contains(a) <==> i < |a|)
  {
    assert forall i :: 0 <= i < |a| ==> a[i] in Contains(a);
    assert forall i :: 0 <= i < |b| ==> b[i] in Contains(b);
    assert forall k :: k in a + b <==> k in a || k in b;
  }

  /**
   * One batch of the workload: look all keys up, and insert the rows of those not cached, in whatever order the query
   * returns them. That is an access of each key of the batch, one at a time: first the hits, then the misses.
   */
  method AccessBatch(c: Cache, keys: set<Key>, table: map<Key, string>, policy: Eviction, maxSize: nat,
    ghost past: seq<Key>)
    returns (ghost trace: seq<Key>)
    requires c.Valid() && keys <= table.Keys && c.order == AfterTrace(past, policy, maxSize)
    modifies c
    ensures c.Valid() && c.order == AfterTrace(past + trace, policy, maxSize)
    ensures Distinct(trace) && Contains(trace) == keys
    ensures var hits := |keys * old(c.Values()).Keys|;
      && c.hits == old(c.hits) + hits && c.misses == old(c.misses) + |keys| - hits
      && hits <= |trace|
      && forall i :: 0 <= i < |trace| ==> (trace[i] in old(c.Values()).Keys <==> i < hits)
  {
    hide Cache.Valid, Cache.Values, AfterTrace, Distinct, TouchedAll, Contains;
    ghost var had := c.Values().Keys;
    ghost var before := c.order;
    OrderHolds(c);
    var uncached, visited := c.FilterUncached(keys, policy);
    Members(visited, before, keys * had);
    HitsAreAccesses(past, visited, policy, maxSize);
    ghost var rows := InsertRows(c, Contains(uncached), table, policy, maxSize, past + visited);
    trace := visited + rows;
    assert past + trace == past + visited + rows;
    BatchCounts(keys, had, visited, uncached, rows);
  }

  lemma OrderHolds(c: Cache)
    requires c.Valid()
    ensures Contains(c.order) == c.Values().Keys
  {}

  lemma Members(visited: seq<Key>, order: seq<Key>, keys: set<Key>)
    requires Contains(visited) == keys && keys <= Contains(order)
    ensures forall k :: k in visited ==> k in order
  {
    assert forall k :: k in visited ==> k in Contains(visited);
  }

  /** Inserts the rows of these keys, in some order. */
  method InsertRows(c: Cache, keys: set<Key>, table: map<Key, string>, policy: Eviction, maxSize: nat,
    ghost past: seq<Key>)
    returns (ghost rows: seq<Key>)
    requires c.Valid() && keys <= table.Keys && c.order == AfterTrace(past, policy, maxSize)
    modifies c`entries, c`head, c`tail, c`order
    ensures c.Valid() && c.order == AfterTrace(past + rows, policy, maxSize)
    ensures Distinct(rows) && Contains(rows) == keys
  {
    hide Cache.Valid, AfterTrace, Inserted, Distinct;
    rows := [];
    assert Distinct(rows) by { NoneDistinct(); }
    assert past + rows == past;
    var todo := keys;
    while todo != {}
      invariant c.Valid() && c.order == AfterTrace(past + rows, policy, maxSize)
      invariant todo <= keys && Distinct(rows) && Contains(rows) == keys - todo
      decreases |todo|
    {
      var k :| k in todo;
      c.Insert(k, table[k], policy, maxSize);
      InsertIsAccess(past + rows, k, policy, maxSize);
      AddsDistinct(rows, k);
      assert past + (rows + [k]) == past + rows + [k];
      rows := rows + [k];
      todo := todo - {k};
    }
  }

  lemma NoneDistinct()
    ensures Distinct([])
  {}

  function Flat(parts: seq<seq<Key>>): seq<Key> {
    if parts == [] then [] else Flat(parts[..|parts| - 1]) + parts[|parts| - 1]
  }

  /** The parts list each batch's keys once. */
  ghost predicate Lists(parts: seq<seq<Key>>, batches: seq<set<Key>>) {
    |parts| == |batches| && forall i :: 0 <= i < |parts| ==> Distinct(parts[i]) && Contains(parts[i]) == batches[i]
  }

  lemma NoParts(policy: Eviction, n: nat)
    ensures Lists([], []) && AfterTrace(Flat([]), policy, n) == []
  {}

  lemma MoreParts(parts: seq<seq<Key>>, batches: seq<set<Key>>, i: nat, part: seq<Key>)
    requires i < |batches| && Lists(parts, batches[..i]) && Distinct(part) && Contains(part) == batches[i]
    ensures Lists(parts + [part], batches[..i + 1]) && Flat(parts + [part]) == Flat(parts) + part
  {
    hide Distinct, Contains;
    assert (parts + [part])[..|parts|] == parts;
  }

  /**
   * The whole workload on an empty cache: whatever the order of the rows of each query, an LRU cache of size `n` ends
   * with the `n` most recently accessed keys, and a FIFO cache with the `n` keys inserted last.
   */
  method Workload(batches: seq<set<Key>>, table: map<Key, string>, policy: Eviction, n: nat)
    returns (c: Cache, ghost parts: seq<seq<Key>>)
    requires forall keys :: keys in batches ==> keys <= table.Keys
    ensures c.Valid() && Lists(parts, batches)
    ensures var trace := Flat(parts);
      c.order == Take(if policy == LRU then Recent(trace) else Reversed(Missed(trace, n)), n)
  {
    hide Cache.Valid, Cache.Values, AfterTrace, Recent, Reversed, Missed, Take, Distinct, Contains, Flat, Lists;
    c := new Cache();
    parts := [];
    NoParts(policy, n);
    for i := 0 to |batches|
      invariant fresh(c) && c.Valid() && c.order == AfterTrace(Flat(parts), policy, n)
      invariant Lists(parts, batches[..i])
    {
      assert batches[i] in batches;
      ghost var part := AccessBatch(c, batches[i], table, policy, n, Flat(parts));
      MoreParts(parts, batches, i, part);
      parts := parts + [part];
    }
    assert batches[..|batches|] == batches;
    if policy == LRU { LruIsMostRecent(Flat(parts), n); } else { FifoIsInsertionOrder(Flat(parts), n); }
  }
}
