/**
 * JavaScript objects as ordered lists of (key, value) entries.
 *
 * The order is insertion order.  `for…in`, `Object.keys` and
 * `Object.getOwnPropertyNames` report that order for keys that are not array
 * indices; JavaScript lists array-index keys first, in ascending numeric
 * order, and that rule is not modelled here.  A lookup reads the
 * first entry with the key and an assignment overwrites that entry in place or
 * appends a new one, so every object built by assignments has distinct keys.
 */
module PropList {
  import opened Wrappers

  type Entries<T> = seq<(string, T)>

  /** The key set of an object. */
  function Keys<T>(ps: Entries<T>): set<string> {
    set i | 0 <= i < |ps| :: ps[i].0
  }

  /** The keys in order (duplicates, which a JavaScript object never has, are kept). */
  function KeyList<T>(ps: Entries<T>): (ks: seq<string>)
    ensures |ks| == |ps|
    ensures forall i :: 0 <= i < |ps| ==> ks[i] == ps[i].0
  {
    seq(|ps|, i requires 0 <= i < |ps| => ps[i].0)
  }

  ghost predicate DistinctKeys<T>(ps: Entries<T>) {
    forall i, j :: 0 <= i < j < |ps| ==> ps[i].0 != ps[j].0
  }

  /** Position of the first entry with key `k`, or `|ps|` when there is none. */
  function IndexOf<T>(ps: Entries<T>, k: string): (i: nat)
    ensures i <= |ps|
    ensures i < |ps| ==> ps[i].0 == k
    ensures forall j :: 0 <= j < i ==> ps[j].0 != k
    ensures i == |ps| <==> k !in Keys(ps)
  {
    if |ps| == 0 then 0
    else if ps[0].0 == k then 0
    else
      var j := IndexOf(ps[1..], k);
      assert forall m :: 0 <= m < |ps| - 1 ==> ps[1..][m] == ps[m + 1];
      assert Keys(ps) == {ps[0].0} + Keys(ps[1..]) by {
        forall x | x in Keys(ps) ensures x in {ps[0].0} + Keys(ps[1..]) {
          var m :| 0 <= m < |ps| && ps[m].0 == x;
          if m > 0 { assert ps[1..][m - 1].0 == x; }
        }
      }
      1 + j
  }

  /** `obj[k]`: the value of the first entry with key `k`. */
  function Get<T>(ps: Entries<T>, k: string): (r: Option<T>)
    ensures r.Some? <==> k in Keys(ps)
  {
    var i := IndexOf(ps, k);
    if i < |ps| then Some(ps[i].1) else None
  }

  /** The first entry for `k` is at `i` when no earlier entry has that key. */
  lemma IndexOfIs<T>(ps: Entries<T>, k: string, i: nat)
    requires i <= |ps|
    requires i == |ps| || ps[i].0 == k
    requires forall j :: 0 <= j < i ==> ps[j].0 != k
    ensures IndexOf(ps, k) == i
  {
    var a := IndexOf(ps, k);
    assert a < |ps| ==> ps[a].0 == k;
  }

  /** `obj[k] = v`: overwrite the entry for `k` in place, or append one. */
  function Put<T>(ps: Entries<T>, k: string, v: T): (r: Entries<T>)
    ensures Keys(r) == Keys(ps) + {k}
    ensures Get(r, k) == Some(v)
    ensures forall k' :: k' != k ==> Get(r, k') == Get(ps, k')
    ensures DistinctKeys(ps) ==> DistinctKeys(r)
    ensures forall e | e in r :: e in ps || e == (k, v)
    ensures k !in Keys(ps) ==> r == ps + [(k, v)]
  {
    var i := IndexOf(ps, k);
    var r := if i < |ps| then ps[i := (k, v)] else ps + [(k, v)];
    PutShape(ps, k, v, i, r);
    PutKeys(ps, k, v, i, r);
    PutGet(ps, k, v, i, r);
    r
  }

  /** The entries after the assignment: all as before except the one at `i`, which holds `(k, v)`. */
  lemma PutShape<T>(ps: Entries<T>, k: string, v: T, i: nat, r: Entries<T>)
    requires i == IndexOf(ps, k)
    requires r == if i < |ps| then ps[i := (k, v)] else ps + [(k, v)]
    ensures |r| == if i < |ps| then |ps| else |ps| + 1
    ensures r[i] == (k, v)
    ensures forall j :: 0 <= j < |ps| && j != i ==> r[j] == ps[j]
    ensures KeyList(r) == if k in Keys(ps) then KeyList(ps) else KeyList(ps) + [k]
    ensures DistinctKeys(ps) ==> DistinctKeys(r)
    ensures forall e | e in r :: e in ps || e == (k, v)
  {
  }

  lemma PutKeys<T>(ps: Entries<T>, k: string, v: T, i: nat, r: Entries<T>)
    requires i == IndexOf(ps, k)
    requires r == if i < |ps| then ps[i := (k, v)] else ps + [(k, v)]
    ensures Keys(r) == Keys(ps) + {k}
  {
    assert KeyList(r) == if i < |ps| then KeyList(ps) else KeyList(ps) + [k];
    assert i < |r| && r[i].0 == k;
    forall x | x in Keys(ps) ensures x in Keys(r) {
      var m :| 0 <= m < |ps| && ps[m].0 == x;
      assert KeyList(r)[m] == x;
    }
    forall x | x in Keys(r) ensures x in Keys(ps) + {k} {
      var m :| 0 <= m < |r| && r[m].0 == x;
      if m < |ps| { assert KeyList(ps)[m] == x; }
    }
  }

  lemma PutGet<T>(ps: Entries<T>, k: string, v: T, i: nat, r: Entries<T>)
    requires i == IndexOf(ps, k)
    requires r == if i < |ps| then ps[i := (k, v)] else ps + [(k, v)]
    ensures Get(r, k) == Some(v)
    ensures forall k' :: k' != k ==> Get(r, k') == Get(ps, k')
  {
    PutShape(ps, k, v, i, r);
    IndexOfIs(r, k, i);
    forall k' | k' != k ensures Get(r, k') == Get(ps, k') {
      if k' in Keys(ps) { IndexOfIs(r, k', IndexOf(ps, k')); }
      else { PutKeys(ps, k, v, i, r); }
    }
  }

  /** The keys in order after `obj[k] = v`: unchanged, or `k` added at the end. */
  lemma PutKeyList<T>(ps: Entries<T>, k: string, v: T)
    ensures KeyList(Put(ps, k, v)) == if k in Keys(ps) then KeyList(ps) else KeyList(ps) + [k]
  {
    PutShape(ps, k, v, IndexOf(ps, k), Put(ps, k, v));
  }

  /** Reading an object that was extended by one entry at the end. */
  lemma GetSnoc<T>(ps: Entries<T>, e: (string, T), k: string)
    ensures Keys(ps + [e]) == Keys(ps) + {e.0}
    ensures Get(ps + [e], k) == if k in Keys(ps) then Get(ps, k) else if k == e.0 then Some(e.1) else None
  {
    var r := ps + [e];
    assert forall j :: 0 <= j < |ps| ==> r[j] == ps[j];
    assert r[|ps|] == e;
    assert Keys(r) == Keys(ps) + {e.0} by {
      forall x | x in Keys(ps) ensures x in Keys(r) {
        var m :| 0 <= m < |ps| && ps[m].0 == x;
        assert r[m].0 == x;
      }
    }
    if k in Keys(ps) {
      IndexOfIs(r, k, IndexOf(ps, k));
    } else if k == e.0 {
      IndexOfIs(r, k, |ps|);
    }
  }

  /** `Object.assign(target, source)`: assign every entry of `source`, in order, onto `target`. */
  function Assign<T>(target: Entries<T>, source: Entries<T>): (r: Entries<T>)
    ensures Keys(r) == Keys(target) + Keys(source)
    ensures DistinctKeys(target) ==> DistinctKeys(r)
    ensures forall e | e in r :: e in target || e in source
    decreases |source|
  {
    if source == [] then target
    else
      var n := |source| - 1;
      GetSnoc(source[..n], source[n], source[n].0);
      assert source == source[..n] + [source[n]];
      Put(Assign(target, source[..n]), source[n].0, source[n].1)
  }

  /** After `Object.assign`, a key of `source` reads its value there; any other key reads `target`. */
  lemma {:induction false} AssignGet<T>(target: Entries<T>, source: Entries<T>, k: string)
    requires DistinctKeys(source)
    ensures Get(Assign(target, source), k) == if k in Keys(source) then Get(source, k) else Get(target, k)
    decreases |source|
  {
    if source != [] {
      var n := |source| - 1;
      var init := source[..n];
      assert source == init + [source[n]];
      GetSnoc(init, source[n], k);
      assert DistinctKeys(init);
      assert source[n].0 !in Keys(init);
      if k != source[n].0 {
        AssignGet(target, init, k);
      }
    }
  }

  /** Writing back the value a key already reads changes nothing. */
  lemma PutSame<T>(ps: Entries<T>, k: string, v: T)
    requires Get(ps, k) == Some(v)
    ensures Put(ps, k, v) == ps
  {
    var i := IndexOf(ps, k);
    assert ps[i := (k, v)] == ps;
  }

  /** `Object.assign({}, source)` copies an object with distinct keys entry for entry. */
  lemma {:induction false} AssignOntoEmpty<T>(source: Entries<T>)
    requires DistinctKeys(source)
    ensures Assign([], source) == source
    decreases |source|
  {
    if source != [] {
      var n := |source| - 1;
      var init := source[..n];
      assert source == init + [source[n]];
      assert DistinctKeys(init);
      AssignOntoEmpty(init);
      assert source[n].0 !in Keys(init);
    }
  }

  /** `s` with repeated strings removed, each kept at its first position. */
  function Dedup(s: seq<string>): (d: seq<string>)
    ensures forall x :: x in d <==> x in s
    ensures forall i, j :: 0 <= i < j < |d| ==> d[i] != d[j]
  {
    if s == [] then []
    else
      var d := Dedup(s[..|s| - 1]);
      assert s == s[..|s| - 1] + [s[|s| - 1]];
      if s[|s| - 1] in d then d else d + [s[|s| - 1]]
  }

  /** Two objects with the same keys in the same order find every key at the same position. */
  lemma SameKeyList<T, U>(ps: Entries<T>, qs: Entries<U>, k: string)
    requires KeyList(ps) == KeyList(qs)
    ensures IndexOf(ps, k) == IndexOf(qs, k)
    ensures Keys(ps) == Keys(qs)
    ensures DistinctKeys(ps) ==> DistinctKeys(qs)
  {
    assert |ps| == |qs|;
    assert forall i :: 0 <= i < |ps| ==> ps[i].0 == qs[i].0 by {
      forall i | 0 <= i < |ps| ensures ps[i].0 == qs[i].0 {
        assert KeyList(ps)[i] == KeyList(qs)[i];
      }
    }
    IndexOfIs(qs, k, IndexOf(ps, k));
    assert Keys(ps) == Keys(qs) by {
      forall x | x in Keys(ps) ensures x in Keys(qs) {
        var m :| 0 <= m < |ps| && ps[m].0 == x;
        assert qs[m].0 == x;
      }
    }
  }
}
