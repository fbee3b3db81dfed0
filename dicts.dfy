/**
 * Python dicts as the source uses them: key/value pairs kept in insertion
 * order, where `d[k] = v` replaces the value in place for a present key and
 * appends otherwise, and `d.pop(k)` removes the entry. Also the two loop
 * shapes that recur in the source: building a dict from entries while
 * skipping those that fail to convert, and building a list the same way.
 */
module Dicts {
  import opened Wrappers

  type Dict<K, V> = seq<(K, V)>

  function Keys<K, V>(d: Dict<K, V>): (ks: seq<K>)
    ensures |ks| == |d| && forall i :: 0 <= i < |d| ==> ks[i] == d[i].0
  {
    seq(|d|, i requires 0 <= i < |d| => d[i].0)
  }

  predicate HasKey<K(==), V>(d: Dict<K, V>, k: K) {
    k in Keys(d)
  }

  ghost predicate DistinctKeys<K, V>(d: Dict<K, V>) {
    forall i, j :: 0 <= i < j < |d| ==> d[i].0 != d[j].0
  }

  /** Position of the entry holding key k. */
  function IndexOfKey<K(==), V>(d: Dict<K, V>, k: K): (i: nat)
    requires HasKey(d, k)
    ensures i < |d| && d[i].0 == k
    ensures forall j :: 0 <= j < i ==> d[j].0 != k
  {
    if d[0].0 == k then 0
    else
      assert Keys(d)[1..] == Keys(d[1..]);
      1 + IndexOfKey(d[1..], k)
  }

  /** `d.get(k)`. */
  function Get<K(==), V>(d: Dict<K, V>, k: K): (r: Option<V>)
    ensures r.Some? <==> HasKey(d, k)
  {
    if HasKey(d, k) then Some(d[IndexOfKey(d, k)].1) else None
  }

  lemma IndexOfKeyAt<K, V>(d: Dict<K, V>, i: nat)
    requires DistinctKeys(d) && i < |d|
    ensures IndexOfKey(d, d[i].0) == i
  {
  }

  lemma GetAt<K, V>(d: Dict<K, V>, i: nat)
    requires DistinctKeys(d) && i < |d|
    ensures Get(d, d[i].0) == Some(d[i].1)
  {
    IndexOfKeyAt(d, i);
  }

  /** `d[k] = v`: the value is replaced in place when k is present and appended otherwise. */
  function Put<K(==), V>(d: Dict<K, V>, k: K, v: V): (r: Dict<K, V>)
    ensures |r| == if HasKey(d, k) then |d| else |d| + 1
    ensures Keys(r) == if HasKey(d, k) then Keys(d) else Keys(d) + [k]
    ensures DistinctKeys(d) ==> DistinctKeys(r)
  {
    if HasKey(d, k) then d[IndexOfKey(d, k) := (k, v)] else d + [(k, v)]
  }

  lemma PutGet<K, V>(d: Dict<K, V>, k: K, v: V)
    requires DistinctKeys(d)
    ensures Get(Put(d, k, v), k) == Some(v)
    ensures forall k' :: k' != k ==> Get(Put(d, k, v), k') == Get(d, k')
  {
    var r := Put(d, k, v);
    var n := if HasKey(d, k) then IndexOfKey(d, k) else |d|;
    assert r[n] == (k, v);
    GetAt(r, n);
    forall k' | k' != k
      ensures Get(r, k') == Get(d, k')
    {
      if HasKey(d, k') {
        var i := IndexOfKey(d, k');
        assert r[i] == d[i];
        GetAt(r, i);
      } else {
        assert !HasKey(r, k');
      }
    }
  }

  /** Assigning to the key of entry i changes that entry alone, in place. */
  lemma PutAt<K, V>(d: Dict<K, V>, i: nat, v: V)
    requires DistinctKeys(d) && i < |d|
    ensures Put(d, d[i].0, v) == d[i := (d[i].0, v)]
  {
    IndexOfKeyAt(d, i);
  }

  /** `d.pop(k)` with k present, or `d` itself when k is absent. */
  function Pop<K(==), V>(d: Dict<K, V>, k: K): (r: Dict<K, V>)
    ensures |r| == if HasKey(d, k) then |d| - 1 else |d|
  {
    if HasKey(d, k) then
      var i := IndexOfKey(d, k);
      d[..i] + d[i + 1..]
    else d
  }

  lemma PopGet<K, V>(d: Dict<K, V>, k: K)
    requires DistinctKeys(d)
    ensures DistinctKeys(Pop(d, k)) && !HasKey(Pop(d, k), k)
    ensures forall k' :: k' != k ==> Get(Pop(d, k), k') == Get(d, k')
  {
    if HasKey(d, k) {
      var i := IndexOfKey(d, k);
      PopShape(d, k);
      forall k' | k' != k
        ensures Get(Pop(d, k), k') == Get(d, k')
      {
        PopGetOther(d, k, i, k');
      }
    }
  }

  /** Popping the entry at position i shifts the later entries down by one. */
  lemma PopShape<K, V>(d: Dict<K, V>, k: K)
    requires DistinctKeys(d) && HasKey(d, k)
    ensures var i := IndexOfKey(d, k);
      (forall j :: 0 <= j < i ==> Pop(d, k)[j] == d[j]) &&
      (forall j :: i <= j < |Pop(d, k)| ==> Pop(d, k)[j] == d[j + 1])
    ensures DistinctKeys(Pop(d, k)) && !HasKey(Pop(d, k), k)
  {
    var i := IndexOfKey(d, k);
    var r := Pop(d, k);
    RemovedAt(d, i, r);
    ShiftedKeys(d, r, i);
  }

  lemma RemovedAt<T>(s: seq<T>, i: nat, r: seq<T>)
    requires i < |s| && r == s[..i] + s[i + 1..]
    ensures |r| == |s| - 1
    ensures forall j :: 0 <= j < i ==> r[j] == s[j]
    ensures forall j :: i <= j < |r| ==> r[j] == s[j + 1]
  {
  }

  /** d with entry i removed keeps distinct keys and loses entry i's key. */
  lemma ShiftedKeys<K, V>(d: Dict<K, V>, r: Dict<K, V>, i: nat)
    requires DistinctKeys(d) && i < |d| && |r| == |d| - 1
    requires forall j :: 0 <= j < i ==> r[j] == d[j]
    requires forall j :: i <= j < |r| ==> r[j] == d[j + 1]
    ensures DistinctKeys(r) && d[i].0 !in Keys(r)
  {
    forall a, b | 0 <= a < b < |r|
      ensures r[a].0 != r[b].0
    {
      var a' := if a < i then a else a + 1;
      var b' := if b < i then b else b + 1;
      assert r[a] == d[a'] && r[b] == d[b'] && a' < b';
    }
    forall j | 0 <= j < |r|
      ensures Keys(r)[j] != d[i].0
    {
      var j' := if j < i then j else j + 1;
      assert r[j] == d[j'] && j' != i;
    }
  }

  lemma PopGetOther<K, V>(d: Dict<K, V>, k: K, i: nat, k': K)
    requires DistinctKeys(d) && HasKey(d, k) && i == IndexOfKey(d, k) && k' != k
    requires forall j :: 0 <= j < i ==> Pop(d, k)[j] == d[j]
    requires forall j :: i <= j < |Pop(d, k)| ==> Pop(d, k)[j] == d[j + 1]
    requires DistinctKeys(Pop(d, k))
    ensures Get(Pop(d, k), k') == Get(d, k')
  {
    var r := Pop(d, k);
    if HasKey(d, k') {
      var i' := IndexOfKey(d, k');
      var j := if i' < i then i' else i' - 1;
      assert r[j] == d[i'];
      GetAt(r, j);
    } else {
      forall j | 0 <= j < |r|
        ensures Keys(r)[j] != k'
      {
        var j' := if j < i then j else j + 1;
        assert r[j] == d[j'] && Keys(d)[j'] != k';
      }
    }
  }

  /** Whether converting entry e succeeds and yields key k. */
  predicate Hits<E, K(==), V>(f: E -> Option<(K, V)>, e: E, k: K) {
    f(e).Some? && f(e).value.0 == k
  }

  /**
   * The loop `for e in entries: try: out[key] = value except: continue`:
   * every entry that converts is assigned in turn, the others are skipped.
   */
  function ConvertEntries<E, K(==), V>(entries: seq<E>, f: E -> Option<(K, V)>): (d: Dict<K, V>)
    ensures DistinctKeys(d)
    ensures |d| <= |entries|
    decreases |entries|
  {
    if entries == [] then []
    else
      var prev := ConvertEntries(entries[..|entries| - 1], f);
      match f(entries[|entries| - 1])
      case None => prev
      case Some(kv) => Put(prev, kv.0, kv.1)
  }

  /** Reference definition: the value that the last entry converting to key k gives it. */
  function LastHit<E, K(==), V>(entries: seq<E>, f: E -> Option<(K, V)>, k: K): Option<V>
    decreases |entries|
  {
    if entries == [] then None
    else
      var e := entries[|entries| - 1];
      if Hits(f, e, k) then Some(f(e).value.1)
      else LastHit(entries[..|entries| - 1], f, k)
  }

  /** The converted dict holds, for every key, exactly what the last entry converting to it gave. */
  lemma {:induction false} ConvertEntriesLastHit<E, K, V>(entries: seq<E>, f: E -> Option<(K, V)>, k: K)
    ensures Get(ConvertEntries(entries, f), k) == LastHit(entries, f, k)
    decreases |entries|
  {
    if entries != [] {
      var prev := ConvertEntries(entries[..|entries| - 1], f);
      var e := entries[|entries| - 1];
      ConvertEntriesLastHit(entries[..|entries| - 1], f, k);
      if f(e).Some? {
        PutGet(prev, f(e).value.0, f(e).value.1);
      }
    }
  }

  /** A key is present after conversion iff some entry converts to it. */
  lemma {:induction false} LastHitPresent<E, K, V>(entries: seq<E>, f: E -> Option<(K, V)>, k: K)
    ensures LastHit(entries, f, k).Some? <==> exists i :: 0 <= i < |entries| && Hits(f, entries[i], k)
    decreases |entries|
  {
    if entries != [] {
      var n := |entries| - 1;
      LastHitPresent(entries[..n], f, k);
      assert forall i :: 0 <= i < n ==> entries[..n][i] == entries[i];
    }
  }

  /** When exactly one entry converts to key k, that entry alone gives k its value. */
  lemma {:induction false} LastHitSingle<E, K, V>(entries: seq<E>, f: E -> Option<(K, V)>, k: K, i: nat)
    requires i < |entries| && Hits(f, entries[i], k)
    requires forall j :: 0 <= j < |entries| && j != i ==> !Hits(f, entries[j], k)
    ensures LastHit(entries, f, k) == Some(f(entries[i]).value.1)
    decreases |entries|
  {
    var n := |entries| - 1;
    if i < n {
      assert forall j :: 0 <= j < n ==> entries[..n][j] == entries[j];
      LastHitSingle(entries[..n], f, k, i);
    }
  }

  /**
   * Converting a dict entry by entry with a conversion that keeps every key
   * gives, for each key, the converted value of that key's entry.
   */
  lemma ConvertKeyPreserving<K, V, W>(d: Dict<K, V>, f: ((K, V)) -> Option<(K, W)>, k: K)
    requires DistinctKeys(d)
    requires forall i :: 0 <= i < |d| ==> f(d[i]).Some? && f(d[i]).value.0 == d[i].0
    ensures Get(ConvertEntries(d, f), k) == if HasKey(d, k) then Some(f(d[IndexOfKey(d, k)]).value.1) else None
  {
    ConvertEntriesLastHit(d, f, k);
    if HasKey(d, k) {
      LastHitSingle(d, f, k, IndexOfKey(d, k));
    } else {
      LastHitPresent(d, f, k);
    }
  }

  /** Converting a dict entry by entry with a conversion that returns every entry unchanged gives the dict back. */
  lemma {:induction false} ConvertEntriesIdentity<K, V>(d: Dict<K, V>, f: ((K, V)) -> Option<(K, V)>)
    requires DistinctKeys(d)
    requires forall i :: 0 <= i < |d| ==> f(d[i]) == Some(d[i])
    ensures ConvertEntries(d, f) == d
    decreases |d|
  {
    if d != [] {
      var n := |d| - 1;
      var p := d[..n];
      assert forall i :: 0 <= i < n ==> p[i] == d[i];
      ConvertEntriesIdentity(p, f);
      assert p + [d[n]] == d;
    }
  }

  /** The loop `for x in s: try: out.append(convert(x)) except: continue`. */
  function FilterMap<A, B>(s: seq<A>, f: A -> Option<B>): (r: seq<B>)
    ensures |r| <= |s|
  {
    if s == [] then []
    else (match f(s[0]) case Some(b) => [b] case None => []) + FilterMap(s[1..], f)
  }

  /** Filtering preserves order: it distributes over concatenation. */
  lemma {:induction false} FilterMapAppend<A, B>(a: seq<A>, b: seq<A>, f: A -> Option<B>)
    ensures FilterMap(a + b, f) == FilterMap(a, f) + FilterMap(b, f)
  {
    if a != [] {
      assert (a + b)[1..] == a[1..] + b;
      FilterMapAppend(a[1..], b, f);
    } else {
      assert a + b == b;
    }
  }

  /** One more item adds its conversion, if any, at the end. */
  lemma FilterMapSnoc<A, B>(s: seq<A>, x: A, f: A -> Option<B>)
    ensures FilterMap(s + [x], f) == FilterMap(s, f) + (if f(x).Some? then [f(x).value] else [])
  {
    FilterMapAppend(s, [x], f);
    assert [x][1..] == [];
  }

  /** An item that always converts to itself is always kept. */
  lemma {:induction false} FilterMapIdentity<A>(s: seq<A>, f: A -> Option<A>)
    requires forall i :: 0 <= i < |s| ==> f(s[i]) == Some(s[i])
    ensures FilterMap(s, f) == s
  {
    if s != [] {
      assert forall i :: 1 <= i < |s| ==> s[1..][i - 1] == s[i];
      FilterMapIdentity(s[1..], f);
    }
  }

  /** When every item converts, the loop keeps one converted item per input item, in order. */
  lemma {:induction false} FilterMapTotal<A, B>(s: seq<A>, f: A -> Option<B>)
    requires forall i :: 0 <= i < |s| ==> f(s[i]).Some?
    ensures |FilterMap(s, f)| == |s|
    ensures forall i :: 0 <= i < |s| ==> FilterMap(s, f)[i] == f(s[i]).value
  {
    if s != [] {
      assert forall i :: 1 <= i < |s| ==> s[1..][i - 1] == s[i];
      FilterMapTotal(s[1..], f);
    }
  }

  /**
   * Converting a dict entry by entry with a conversion that keeps every key
   * yields one converted entry per entry, in the dict's order.
   */
  lemma {:induction false} ConvertKeyPreservingPointwise<K, V, W>(d: Dict<K, V>, f: ((K, V)) -> Option<(K, W)>)
    requires DistinctKeys(d)
    requires forall i :: 0 <= i < |d| ==> f(d[i]).Some? && f(d[i]).value.0 == d[i].0
    ensures |ConvertEntries(d, f)| == |d|
    ensures forall i :: 0 <= i < |d| ==> ConvertEntries(d, f)[i] == f(d[i]).value
    decreases |d|
  {
    if d != [] {
      var n := |d| - 1;
      var p := d[..n];
      assert forall i :: 0 <= i < n ==> p[i] == d[i];
      ConvertKeyPreservingPointwise(p, f);
      var prev := ConvertEntries(p, f);
      assert !HasKey(prev, d[n].0) by {
        assert forall i :: 0 <= i < n ==> Keys(prev)[i] == d[i].0;
      }
      var kv := f(d[n]).value;
      assert ConvertEntries(d, f) == Put(prev, kv.0, kv.1) == prev + [kv];
    }
  }

  /** An item is in the loop's output iff some input item converts to it. */
  lemma {:induction false} FilterMapMember<A, B>(s: seq<A>, f: A -> Option<B>, y: B)
    ensures y in FilterMap(s, f) <==> exists i :: 0 <= i < |s| && f(s[i]) == Some(y)
  {
    if s != [] {
      FilterMapMember(s[1..], f, y);
      assert forall i :: 1 <= i < |s| ==> s[1..][i - 1] == s[i];
      if y in FilterMap(s[1..], f) {
        var i :| 0 <= i < |s| - 1 && f(s[1..][i]) == Some(y);
        assert f(s[i + 1]) == Some(y);
      }
    }
  }

  /** `for x in s: out.extend(f(x))`, written by its last step. */
  function FlatMap<A, B>(s: seq<A>, f: A -> seq<B>): seq<B>
    decreases |s|
  {
    if s == [] then [] else FlatMap(s[..|s| - 1], f) + f(s[|s| - 1])
  }

  /** The items are handled one after another: a split of the input splits the output. */
  lemma {:induction false} FlatMapAppend<A, B>(a: seq<A>, b: seq<A>, f: A -> seq<B>)
    ensures FlatMap(a + b, f) == FlatMap(a, f) + FlatMap(b, f)
    decreases |b|
  {
    if b == [] {
      assert a + b == a;
    } else {
      var n := |b| - 1;
      assert (a + b)[..|a + b| - 1] == a + b[..n];
      assert (a + b)[|a + b| - 1] == b[n];
      FlatMapAppend(a, b[..n], f);
    }
  }

  /** Everything in the output comes from one of the input items. */
  lemma {:induction false} FlatMapMember<A, B>(s: seq<A>, f: A -> seq<B>, y: B)
    requires y in FlatMap(s, f)
    ensures exists i :: 0 <= i < |s| && y in f(s[i])
    decreases |s|
  {
    var n := |s| - 1;
    if y !in f(s[n]) {
      FlatMapMember(s[..n], f, y);
      var i :| 0 <= i < n && y in f(s[..n][i]);
      assert s[..n][i] == s[i];
    }
  }
}
