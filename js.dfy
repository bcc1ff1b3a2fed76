/**
 * The JavaScript values the logger and the error interceptor handle, as finite
 * trees, with the parts of the language's semantics they rely on: property
 * reads through the prototype chain, `instanceof Error`, `instanceof Object`,
 * truthiness, and the round trip `JSON.parse(JSON.stringify(value, names))`
 * with a property-name list.
 */
module Js {
  import opened Wrappers
  import opened PropList

  type Props = Entries<Value>

  /**
   * A value.  `Obj` is a plain object with its entries in insertion order.
   * `Err` is an object for which `instanceof Error` holds: `own` are its own
   * properties, enumerable or not (`message` and `stack` for a built-in
   * error); `inherited` are those it reaches through its prototype chain
   * (`name` for a plain `new Error(...)`); `toJSON` is the result of its
   * `toJSON()` method when it has one.
   */
  datatype Value =
    | Null
    | Bool(b: bool)
    | Num(n: int)
    | Str(s: string)
    | Arr(items: seq<Value>)
    | Obj(props: Props)
    | Err(own: Props, inherited: Props, toJSON: Option<Value>)

  /** `v instanceof Error` */
  predicate IsError(v: Value) {
    v.Err?
  }

  /** `v instanceof Object`: arrays, plain objects and errors; no primitive. */
  predicate IsObject(v: Value) {
    v.Arr? || v.Obj? || v.Err?
  }

  /** The truth value JavaScript gives `v` in a condition or an `||`. */
  predicate Truthy(v: Value) {
    match v
    case Null => false
    case Bool(b) => b
    case Num(n) => n != 0
    case Str(s) => s != ""
    case _ => true
  }

  /** `v[k]` for a string key: own properties first, then the prototype chain. */
  function Member(v: Value, k: string): (r: Option<Value>)
    ensures r.Some? ==> v.Obj? || v.Err?
  {
    match v
    case Obj(ps) => Get(ps, k)
    case Err(own, inh, _) => if k in Keys(own) then Get(own, k) else Get(inh, k)
    case _ => None
  }

  /** `v[k] = x`: assignment creates or overwrites an own property. */
  function SetMember(v: Value, k: string, x: Value): (r: Value)
    requires v.Obj? || v.Err?
    ensures Member(r, k) == Some(x)
    ensures forall k' :: k' != k ==> Member(r, k') == Member(v, k')
    ensures v.Obj? ==> r.Obj?
    ensures v.Err? ==> r.Err? && k in Keys(r.own)
  {
    match v
    case Obj(ps) => Obj(Put(ps, k, x))
    case Err(own, inh, t) => Err(Put(own, k, x), inh, t)
  }

  /** Assigning the value a property already holds as its own changes nothing. */
  lemma SetMemberSame(v: Value, k: string, x: Value)
    requires v.Obj? || (v.Err? && k in Keys(v.own))
    requires Member(v, k) == Some(x)
    ensures SetMember(v, k, x) == v
  {
    match v
    case Obj(ps) => PutSame(ps, k, x);
    case Err(own, _, _) => PutSame(own, k, x);
  }

  /** The decimal representation of `n`, as array indices are named. */
  function NatToString(n: nat): (s: string)
    ensures |s| > 0
  {
    var d := ['0', '1', '2', '3', '4', '5', '6', '7', '8', '9'];
    if n < 10 then [d[n]] else NatToString(n / 10) + [d[n % 10]]
  }

  /** `Object.getOwnPropertyNames(v)`; for `null` the real call throws, see the error interceptor. */
  function OwnNames(v: Value): seq<string> {
    match v
    case Obj(ps) => KeyList(ps)
    case Err(own, _, _) => KeyList(own)
    case Arr(items) => seq(|items|, i requires 0 <= i < |items| => NatToString(i)) + ["length"]
    case Str(s) => seq(|s|, i requires 0 <= i < |s| => NatToString(i)) + ["length"]
    case _ => []
  }

  /** The value contains no error anywhere: what `JSON.parse` can give back. */
  predicate NoError(v: Value)
    decreases v
  {
    match v
    case Err(_, _, _) => false
    case Arr(items) => forall i | 0 <= i < |items| :: NoError(items[i])
    case Obj(ps) => forall i | 0 <= i < |ps| :: NoError(ps[i].1)
    case _ => true
  }

  /**
   * `JSON.parse(JSON.stringify(v, names))` for a value `v` reached as a
   * property (or as the root): a `toJSON` method is called first and its
   * result serialized instead; objects keep only the properties listed in
   * `names`, at every depth, and arrays keep all their elements.
   */
  function Serialize(v: Value, names: seq<string>): Value
    decreases v, 2
  {
    match v
    case Err(_, _, Some(t)) => SerializeBody(t, names)
    case _ => SerializeBody(v, names)
  }

  /** The serialization of `v` once `toJSON` has been dealt with. */
  function SerializeBody(v: Value, names: seq<string>): Value
    decreases v, 1
  {
    match v
    case Arr(items) => Arr(seq(|items|, i requires 0 <= i < |items| => Serialize(items[i], names)))
    case Obj(_) => Obj(Pick(v, names, names))
    case Err(_, _, _) => Obj(Pick(v, names, names))
    case _ => v
  }

  /**
   * The entries an object serializes to for the property list `ks` (a prefix
   * of `names`): each listed name that `v` has, once, in list order, with its
   * serialized value.
   */
  function Pick(v: Value, names: seq<string>, ks: seq<string>): Props
    requires v.Obj? || v.Err?
    decreases v, 0, |ks|
  {
    if ks == [] then []
    else
      var prev := Pick(v, names, ks[..|ks| - 1]);
      var k := ks[|ks| - 1];
      match v
      case Obj(ps) =>
        var i := IndexOf(ps, k);
        if i < |ps| then Put(prev, k, Serialize(ps[i].1, names)) else prev
      case Err(own, inh, _) =>
        var i := IndexOf(own, k);
        if i < |own| then Put(prev, k, Serialize(own[i].1, names))
        else
          var j := IndexOf(inh, k);
          if j < |inh| then Put(prev, k, Serialize(inh[j].1, names)) else prev
  }

  /** What a serialized object holds: each listed name the object has, with its serialized value. */
  lemma {:induction false} PickGet(v: Value, names: seq<string>, ks: seq<string>, k: string)
    requires v.Obj? || v.Err?
    ensures Get(Pick(v, names, ks), k) ==
      if k in ks && Member(v, k).Some? then Some(Serialize(Member(v, k).value, names)) else None
    ensures DistinctKeys(Pick(v, names, ks))
    decreases |ks|
  {
    if ks != [] {
      var n := |ks| - 1;
      assert ks == ks[..n] + [ks[n]];
      PickGet(v, names, ks[..n], k);
      if v.Err? {
        assert IndexOf(v.own, ks[n]) < |v.own| <==> ks[n] in Keys(v.own);
      }
    }
  }

  /** The key set of a serialized object. */
  lemma PickKeys(v: Value, names: seq<string>, ks: seq<string>)
    requires v.Obj? || v.Err?
    ensures Keys(Pick(v, names, ks)) == set k | k in ks && Member(v, k).Some?
  {
    var r := Pick(v, names, ks);
    forall k ensures k in Keys(r) <==> k in ks && Member(v, k).Some? {
      PickGet(v, names, ks, k);
    }
  }

  /** Serialization never produces an error object (`JSON.parse` cannot). */
  lemma {:induction false} SerializeNoError(v: Value, names: seq<string>)
    ensures NoError(Serialize(v, names))
    decreases v, 2
  {
    match v
    case Err(_, _, Some(t)) => SerializeBodyNoError(t, names);
    case _ => SerializeBodyNoError(v, names);
  }

  lemma {:induction false} SerializeBodyNoError(v: Value, names: seq<string>)
    ensures NoError(SerializeBody(v, names))
    decreases v, 1
  {
    match v
    case Arr(items) =>
      forall i | 0 <= i < |items| ensures NoError(Serialize(items[i], names)) {
        SerializeNoError(items[i], names);
      }
    case Obj(_) => PickNoError(v, names, names);
    case Err(_, _, _) => PickNoError(v, names, names);
    case _ =>
  }

  lemma {:induction false} PickNoError(v: Value, names: seq<string>, ks: seq<string>)
    requires v.Obj? || v.Err?
    ensures forall e | e in Pick(v, names, ks) :: NoError(e.1)
    decreases v, 0, |ks|
  {
    if ks != [] {
      var n := |ks| - 1;
      PickNoError(v, names, ks[..n]);
      var k := ks[n];
      match v
      case Obj(ps) =>
        var i := IndexOf(ps, k);
        if i < |ps| { SerializeNoError(ps[i].1, names); }
      case Err(own, inh, _) =>
        var i := IndexOf(own, k);
        var j := IndexOf(inh, k);
        if i < |own| { SerializeNoError(own[i].1, names); }
        else if j < |inh| { SerializeNoError(inh[j].1, names); }
    }
  }

  /** JSON data: no error anywhere and distinct keys in every object, as `JSON.parse` returns. */
  ghost predicate PlainData(v: Value)
    decreases v
  {
    match v
    case Err(_, _, _) => false
    case Arr(items) => forall i | 0 <= i < |items| :: PlainData(items[i])
    case Obj(ps) => DistinctKeys(ps) && forall i | 0 <= i < |ps| :: PlainData(ps[i].1)
    case _ => true
  }

  /** The first `m` own keys, serialized, are the first `m` entries of `ps` with their values serialized. */
  ghost predicate PickedPrefix(ps: Props, names: seq<string>, m: nat)
    requires m <= |ps|
  {
    var p := Pick(Obj(ps), names, KeyList(ps)[..m]);
    |p| == m && forall i | 0 <= i < m :: p[i] == (ps[i].0, Serialize(ps[i].1, names))
  }

  /** Listing an object's own keys in order serializes it entry by entry, in the same order. */
  lemma {:induction false} PickOwnKeys(ps: Props, names: seq<string>, m: nat)
    requires DistinctKeys(ps) && m <= |ps|
    ensures PickedPrefix(ps, names, m)
  {
    if m > 0 {
      var n := m - 1;
      PickOwnKeys(ps, names, n);
      PickOwnStep(ps, names, n);
    }
  }

  /** One step of `PickOwnKeys`: the `m`-th key is new, so its entry is appended. */
  lemma PickOwnStep(ps: Props, names: seq<string>, n: nat)
    requires DistinctKeys(ps) && n < |ps|
    requires PickedPrefix(ps, names, n)
    ensures PickedPrefix(ps, names, n + 1)
  {
    var prev := Pick(Obj(ps), names, KeyList(ps)[..n]);
    var cur := Pick(Obj(ps), names, KeyList(ps)[..n + 1]);
    PickOwnAppend(ps, names, n);
    forall i | 0 <= i <= n ensures cur[i] == (ps[i].0, Serialize(ps[i].1, names)) {
      if i < n {
        assert cur[i] == prev[i];
      }
    }
  }

  /** The `n`-th own key is not among the first `n`, so `Pick` appends its entry. */
  lemma PickOwnAppend(ps: Props, names: seq<string>, n: nat)
    requires DistinctKeys(ps) && n < |ps|
    requires PickedPrefix(ps, names, n)
    ensures Pick(Obj(ps), names, KeyList(ps)[..n + 1]) ==
      Pick(Obj(ps), names, KeyList(ps)[..n]) + [(ps[n].0, Serialize(ps[n].1, names))]
  {
    var ks := KeyList(ps)[..n + 1];
    var k := ps[n].0;
    assert ks[..n] == KeyList(ps)[..n];
    var prev := Pick(Obj(ps), names, ks[..n]);
    IndexOfIs(ps, k, n);
    assert k !in Keys(prev) by {
      forall i | 0 <= i < n ensures prev[i].0 != k {
        assert prev[i].0 == ps[i].0;
      }
    }
  }
}
