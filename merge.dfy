/**
 * `merge(obj1, obj2)` of the logger (packages/woodwork-logger/lib/merge.js):
 * a fresh object filled by a `for…in` over `obj1` and then one over `obj2`,
 * each assigning `obj3[prop] = objN[prop]`.  The logger builds its options
 * with it.
 */
module Merge {
  import opened PropList

  /** A key of an object is found among its keys. */
  lemma KeyInKeys<T>(ps: Entries<T>, i: nat)
    requires i < |ps|
    ensures ps[i].0 in Keys(ps)
  {
  }

  /** `for (let prop in source) target[prop] = source[prop]`, after the first `n` keys of `source`. */
  function CopyKeys<T>(target: Entries<T>, source: Entries<T>, n: nat): Entries<T>
    requires n <= |source|
    decreases n
  {
    if n == 0 then target
    else
      var prop := source[n - 1].0;
      KeyInKeys(source, n - 1);
      Put(CopyKeys(target, source, n - 1), prop, Get(source, prop).value)
  }

  /** The object `merge(obj1, obj2)` returns. */
  function Merged<T>(obj1: Entries<T>, obj2: Entries<T>): Entries<T> {
    CopyKeys(CopyKeys([], obj1, |obj1|), obj2, |obj2|)
  }

  /** The two `for…in` loops of `merge`. */
  method Merge<T>(obj1: Entries<T>, obj2: Entries<T>) returns (obj3: Entries<T>)
    ensures obj3 == Merged(obj1, obj2)
  {
    obj3 := [];
    for i := 0 to |obj1|
      invariant obj3 == CopyKeys([], obj1, i)
    {
      var prop := obj1[i].0;
      KeyInKeys(obj1, i);
      obj3 := Put(obj3, prop, Get(obj1, prop).value);
    }
    var first := obj3;
    for i := 0 to |obj2|
      invariant obj3 == CopyKeys(first, obj2, i)
    {
      var prop := obj2[i].0;
      KeyInKeys(obj2, i);
      obj3 := Put(obj3, prop, Get(obj2, prop).value);
    }
  }

  // ---------------------------------------------------------------------------
  // What one loop does
  // ---------------------------------------------------------------------------

  /** The names the first `n` iterations visit. */
  function Visited<T>(source: Entries<T>, n: nat): set<string>
    requires n <= |source|
  {
    set i | 0 <= i < n :: source[i].0
  }

  /** After `n` iterations, the keys are those of `target` and the visited ones. */
  lemma {:induction false} CopyKeysKeys<T>(target: Entries<T>, source: Entries<T>, n: nat)
    requires n <= |source|
    ensures Keys(CopyKeys(target, source, n)) == Keys(target) + Visited(source, n)
    decreases n
  {
    if n > 0 {
      var m := n - 1;
      CopyKeysKeys(target, source, m);
      KeysStep(target, source, m);
    }
  }

  /** The induction step of `CopyKeysKeys`. */
  lemma KeysStep<T>(target: Entries<T>, source: Entries<T>, m: nat)
    requires m < |source|
    requires Keys(CopyKeys(target, source, m)) == Keys(target) + Visited(source, m)
    ensures Keys(CopyKeys(target, source, m + 1)) == Keys(target) + Visited(source, m + 1)
  {
    CopyKeysStep(target, source, m);
    VisitedStep(source, m);
  }

  /** After `n` iterations, a visited key reads `source`, any other key reads `target`. */
  lemma {:induction false} CopyKeysGet<T>(target: Entries<T>, source: Entries<T>, n: nat, k: string)
    requires n <= |source|
    ensures Get(CopyKeys(target, source, n), k) == if k in Visited(source, n) then Get(source, k) else Get(target, k)
    decreases n
  {
    if n > 0 {
      var m := n - 1;
      CopyKeysGet(target, source, m, k);
      GetStep(target, source, m, k);
    }
  }

  /** The induction step of `CopyKeysGet`. */
  lemma GetStep<T>(target: Entries<T>, source: Entries<T>, m: nat, k: string)
    requires m < |source|
    requires Get(CopyKeys(target, source, m), k) == if k in Visited(source, m) then Get(source, k) else Get(target, k)
    ensures Get(CopyKeys(target, source, m + 1), k) == if k in Visited(source, m + 1) then Get(source, k) else Get(target, k)
  {
    CopyKeysStep(target, source, m);
    VisitedStep(source, m);
  }

  /** One more iteration visits one more name. */
  lemma VisitedStep<T>(source: Entries<T>, m: nat)
    requires m < |source|
    ensures Visited(source, m + 1) == Visited(source, m) + {source[m].0}
  {
    forall x | x in Visited(source, m + 1) ensures x in Visited(source, m) + {source[m].0} {
      var j :| 0 <= j < m + 1 && source[j].0 == x;
      if j < m { assert x in Visited(source, m); }
    }
  }

  /** One more iteration: one more assignment. */
  lemma CopyKeysStep<T>(target: Entries<T>, source: Entries<T>, m: nat)
    requires m < |source|
    ensures source[m].0 in Keys(source)
    ensures CopyKeys(target, source, m + 1) ==
      Put(CopyKeys(target, source, m), source[m].0, Get(source, source[m].0).value)
  {
  }

  /** A full loop visits every key of `source`. */
  lemma VisitedAll<T>(source: Entries<T>)
    ensures Visited(source, |source|) == Keys(source)
  {
  }

  /** A loop keeps distinct keys distinct. */
  lemma {:induction false} CopyKeysDistinct<T>(target: Entries<T>, source: Entries<T>, n: nat)
    requires n <= |source| && DistinctKeys(target)
    ensures DistinctKeys(CopyKeys(target, source, n))
    decreases n
  {
    if n > 0 {
      CopyKeysDistinct(target, source, n - 1);
    }
  }

  /** A string list with no repetition is its own `Dedup`. */
  lemma {:induction false} DedupDistinct(s: seq<string>)
    requires forall i, j :: 0 <= i < j < |s| ==> s[i] != s[j]
    ensures Dedup(s) == s
  {
    if s != [] {
      var init := s[..|s| - 1];
      DedupDistinct(init);
      assert s[|s| - 1] !in init;
      assert s == init + [s[|s| - 1]];
    }
  }

  /** Removing repetitions from a prefix first changes nothing. */
  lemma {:induction false} DedupPrefix(a: seq<string>, b: seq<string>)
    ensures Dedup(Dedup(a) + b) == Dedup(a + b)
    decreases |b|
  {
    if b == [] {
      assert Dedup(a) + b == Dedup(a);
      assert a + b == a;
      DedupDistinct(Dedup(a));
    } else {
      var init := b[..|b| - 1];
      var x := b[|b| - 1];
      DedupPrefix(a, init);
      DedupPrefixStep(a, init, x);
      assert b == init + [x];
    }
  }

  /** The induction step of `DedupPrefix`. */
  lemma DedupPrefixStep(a: seq<string>, init: seq<string>, x: string)
    requires Dedup(Dedup(a) + init) == Dedup(a + init)
    ensures Dedup(Dedup(a) + (init + [x])) == Dedup(a + (init + [x]))
  {
    assert Dedup(a) + (init + [x]) == (Dedup(a) + init) + [x];
    assert a + (init + [x]) == (a + init) + [x];
    DedupSnoc(Dedup(a) + init, x);
    DedupSnoc(a + init, x);
  }

  /** Appending a string keeps it only when it is new. */
  lemma DedupSnoc(s: seq<string>, x: string)
    ensures Dedup(s + [x]) == if x in s then Dedup(s) else Dedup(s) + [x]
  {
    assert (s + [x])[..|s|] == s;
  }

  /** The keys in the order the loops leave them: those of `target`, then each new key of `source` where first met. */
  lemma {:induction false} CopyKeysOrder<T>(target: Entries<T>, source: Entries<T>, n: nat)
    requires n <= |source| && DistinctKeys(target)
    ensures KeyList(CopyKeys(target, source, n)) == Dedup(KeyList(target) + KeyList(source)[..n])
    decreases n
  {
    if n == 0 {
      OrderBase(target, source);
    } else {
      var m := n - 1;
      CopyKeysOrder(target, source, m);
      OrderStep(target, source, m);
    }
  }

  /** The base case of `CopyKeysOrder`. */
  lemma OrderBase<T>(target: Entries<T>, source: Entries<T>)
    requires DistinctKeys(target)
    ensures KeyList(CopyKeys(target, source, 0)) == Dedup(KeyList(target) + KeyList(source)[..0])
  {
    assert KeyList(target) + KeyList(source)[..0] == KeyList(target);
    DedupDistinct(KeyList(target));
  }

  /** The induction step of `CopyKeysOrder`. */
  lemma OrderStep<T>(target: Entries<T>, source: Entries<T>, m: nat)
    requires m < |source|
    requires KeyList(CopyKeys(target, source, m)) == Dedup(KeyList(target) + KeyList(source)[..m])
    ensures KeyList(CopyKeys(target, source, m + 1)) == Dedup(KeyList(target) + KeyList(source)[..m + 1])
  {
    var k := source[m].0;
    CopyKeysStep(target, source, m);
    var prev := KeyList(target) + KeyList(source)[..m];
    PutOrder(CopyKeys(target, source, m), k, Get(source, k).value, prev);
    SnocPrefix(KeyList(target), KeyList(source), m);
  }

  lemma SnocPrefix(a: seq<string>, ks: seq<string>, m: nat)
    requires m < |ks|
    ensures a + ks[..m + 1] == (a + ks[..m]) + [ks[m]]
  {
    assert ks[..m + 1] == ks[..m] + [ks[m]];
  }

  /** One assignment extends the order of first appearance by its key. */
  lemma PutOrder<T>(c: Entries<T>, k: string, v: T, prev: seq<string>)
    requires KeyList(c) == Dedup(prev)
    ensures KeyList(Put(c, k, v)) == Dedup(prev + [k])
  {
    PutKeyList(c, k, v);
    var all := prev + [k];
    assert all[..|all| - 1] == prev;
    assert k in KeyList(c) <==> k in Keys(c) by {
      if k in Keys(c) {
        var j :| 0 <= j < |c| && c[j].0 == k;
        assert KeyList(c)[j] == k;
      }
    }
  }

  // ---------------------------------------------------------------------------
  // Properties of `merge`
  // ---------------------------------------------------------------------------

  /**
   * The keys of the result are those of both arguments; a key of `obj2` has
   * `obj2`'s value (the merge is right-biased), a key only of `obj1` keeps
   * `obj1`'s value, and every key appears once.
   */
  lemma MergedGet<T>(obj1: Entries<T>, obj2: Entries<T>, k: string)
    ensures Keys(Merged(obj1, obj2)) == Keys(obj1) + Keys(obj2)
    ensures Get(Merged(obj1, obj2), k) == if k in Keys(obj2) then Get(obj2, k) else Get(obj1, k)
    ensures DistinctKeys(Merged(obj1, obj2))
  {
    var first := CopyKeys([], obj1, |obj1|);
    CopyKeysGet([], obj1, |obj1|, k);
    CopyKeysGet(first, obj2, |obj2|, k);
    CopyKeysKeys([], obj1, |obj1|);
    CopyKeysKeys(first, obj2, |obj2|);
    VisitedAll(obj1);
    VisitedAll(obj2);
    CopyKeysDistinct([], obj1, |obj1|);
    CopyKeysDistinct(first, obj2, |obj2|);
  }

  /** The keys in insertion order (the `for…in` order when no key is an array index): those of `obj1`, then those only `obj2` has. */
  lemma MergedOrder<T>(obj1: Entries<T>, obj2: Entries<T>)
    ensures KeyList(Merged(obj1, obj2)) == Dedup(KeyList(obj1) + KeyList(obj2))
  {
    var none: Entries<T> := [];
    var first := CopyKeys(none, obj1, |obj1|);
    CopyKeysOrder(none, obj1, |obj1|);
    assert KeyList(none) + KeyList(obj1)[..|obj1|] == KeyList(obj1);
    CopyKeysDistinct([], obj1, |obj1|);
    CopyKeysOrder(first, obj2, |obj2|);
    assert KeyList(obj2)[..|obj2|] == KeyList(obj2);
    DedupPrefix(KeyList(obj1), KeyList(obj2));
  }

  /** Two objects with distinct keys, the same keys in the same order and the same values are equal. */
  lemma SameEntries<T>(a: Entries<T>, b: Entries<T>)
    requires KeyList(a) == KeyList(b) && DistinctKeys(a)
    requires forall k :: Get(a, k) == Get(b, k)
    ensures a == b
  {
    forall i | 0 <= i < |a| ensures a[i] == b[i] {
      assert KeyList(a)[i] == KeyList(b)[i];
      IndexOfIs(a, a[i].0, i);
      IndexOfIs(b, a[i].0, i);
      assert Get(a, a[i].0) == Get(b, a[i].0);
    }
  }

  /** Merging an empty second object copies the first. */
  lemma MergeEmptyRight<T>(obj: Entries<T>)
    requires DistinctKeys(obj)
    ensures Merged(obj, []) == obj
  {
    var none: Entries<T> := [];
    MergedOrder(obj, none);
    assert KeyList(obj) + KeyList(none) == KeyList(obj);
    DedupDistinct(KeyList(obj));
    forall k ensures Get(Merged(obj, none), k) == Get(obj, k) {
      MergedGet(obj, none, k);
    }
    SameEntries(obj, Merged(obj, none));
  }

  /** The first `n` iterations of copying an object with distinct keys onto `{}` give its first `n` entries. */
  lemma {:induction false} CopyOntoEmpty<T>(obj: Entries<T>, n: nat)
    requires n <= |obj| && DistinctKeys(obj)
    ensures CopyKeys([], obj, n) == obj[..n]
    decreases n
  {
    if n > 0 {
      var m := n - 1;
      CopyOntoEmpty(obj, m);
      CopyOntoEmptyStep(obj, m);
    }
  }

  /** The induction step of `CopyOntoEmpty`: the `m`-th key is new, so its entry is appended. */
  lemma CopyOntoEmptyStep<T>(obj: Entries<T>, m: nat)
    requires m < |obj| && DistinctKeys(obj)
    requires CopyKeys([], obj, m) == obj[..m]
    ensures CopyKeys([], obj, m + 1) == obj[..m + 1]
  {
    var none: Entries<T> := [];
    var p := obj[..m];
    var k := obj[m].0;
    CopyKeysStep(none, obj, m);
    IndexOfIs(obj, k, m);
    assert k !in Keys(p) by {
      forall j | 0 <= j < m ensures p[j].0 != k {
        assert p[j] == obj[j];
      }
    }
    assert Put(p, k, obj[m].1) == p + [(k, obj[m].1)];
    TakeSnoc(obj, m);
  }

  /** A prefix one longer is the prefix followed by the next element. */
  lemma TakeSnoc<T>(s: seq<T>, m: nat)
    requires m < |s|
    ensures s[..m + 1] == s[..m] + [s[m]]
  {
  }

  /** Merging onto an empty first object copies the second. */
  lemma MergeEmptyLeft<T>(obj: Entries<T>)
    requires DistinctKeys(obj)
    ensures Merged([], obj) == obj
  {
    var none: Entries<T> := [];
    assert Merged(none, obj) == CopyKeys(none, obj, |obj|);
    CopyOntoEmpty(obj, |obj|);
    assert obj[..|obj|] == obj;
  }
}
