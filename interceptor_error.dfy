/**
 * The error interceptor (packages/woodwork-interceptor-error): an event
 * transform that, for events at level "error", replaces Error values in the
 * event's `data` by plain objects that `JSON.stringify` can send.
 */
module ErrorInterceptor {
  import opened Wrappers
  import opened PropList
  import opened Js

  /** The options the interceptor reads. */
  datatype Options = Options(getOwnProperties: bool, whitelist: seq<string>)

  /** The `opts` a caller passes: each option it sets, `None` where it sets none. */
  datatype Overrides = Overrides(getOwnProperties: Option<bool>, whitelist: Option<seq<string>>)

  /** The defaults (`default-options.js`), as the tests use them. */
  const DefaultOptions := Options(true, ["message", "name", "stack"])

  /** `Object.assign(base, opts)` restricted to the two recognised options. */
  function Override(base: Options, opts: Overrides): (r: Options)
    ensures opts.getOwnProperties.Some? ==> r.getOwnProperties == opts.getOwnProperties.value
    ensures opts.getOwnProperties.None? ==> r.getOwnProperties == base.getOwnProperties
    ensures opts.whitelist.Some? ==> r.whitelist == opts.whitelist.value
    ensures opts.whitelist.None? ==> r.whitelist == base.whitelist
  {
    Options(opts.getOwnProperties.GetOr(base.getOwnProperties), opts.whitelist.GetOr(base.whitelist))
  }

  // ---------------------------------------------------------------------------
  // The own-property capture, `getOwnPropertyNames(obj)`.
  // `newObj` is `obj` serialized with its own property names as the property
  // list; then every property of `newObj` whose value is an object is
  // replaced by the capture of the same property of `obj`.
  // ---------------------------------------------------------------------------

  function OwnCapture(v: Value): Value
    decreases v, 3
  {
    match Serialize(v, OwnNames(v))
    case Obj(ps) => Obj(seq(|ps|, i requires 0 <= i < |ps| => CaptureEntry(v, ps[i])))
    case Arr(items) => Arr(seq(|items|, i requires 0 <= i < |items| => CaptureElement(v, i, items[i])))
    case first => first
  }

  /** `newObj[key]` after the loop, for the entry `e` of `newObj`. */
  function CaptureEntry(v: Value, e: (string, Value)): (string, Value)
    decreases v, 2
  {
    if IsObject(e.1) then
      match CaptureMember(v, e.0)
      case Some(c) => (e.0, c)
      case None => e
    else e
  }

  /** `newObj[i]` after the loop, when `newObj` is an array. */
  function CaptureElement(v: Value, i: nat, x: Value): Value
    decreases v, 2
  {
    if IsObject(x) then CaptureIndex(v, i).GetOr(x) else x
  }

  /** The capture of `v[i]`; none when that is `undefined` or `null`. */
  function CaptureIndex(v: Value, i: nat): Option<Value>
    decreases v, 1
  {
    match v
    case Arr(items) => if i < |items| && items[i] != Null then Some(OwnCapture(items[i])) else None
    case _ => CaptureMember(v, NatToString(i))
  }

  /**
   * The capture of `v[k]`; none when that is `undefined` or `null`, where
   * `Object.getOwnPropertyNames` would throw (the value serialized so far is
   * then kept).
   */
  function CaptureMember(v: Value, k: string): (r: Option<Value>)
    decreases v, 0
  {
    match v
    case Obj(ps) =>
      var i := IndexOf(ps, k);
      if i < |ps| && ps[i].1 != Null then Some(OwnCapture(ps[i].1)) else None
    case Err(own, inh, _) =>
      var i := IndexOf(own, k);
      var j := IndexOf(inh, k);
      if i < |own| then (if own[i].1 != Null then Some(OwnCapture(own[i].1)) else None)
      else if j < |inh| && inh[j].1 != Null then Some(OwnCapture(inh[j].1))
      else None
    case _ => None
  }

  /** `CaptureMember` in terms of the property read `v[k]`. */
  lemma CaptureMemberIs(v: Value, k: string)
    ensures CaptureMember(v, k) ==
      match Member(v, k)
      case Some(x) => if x != Null then Some(OwnCapture(x)) else None
      case None => None
  {
  }

  // ---------------------------------------------------------------------------
  // `expose(error, opts)`
  // ---------------------------------------------------------------------------

  /** The entries `Object.assign` copies from a source that is a plain object. */
  function EntriesOf(v: Value): Props {
    if v.Obj? then v.props else []
  }

  /** `JSON.parse(JSON.stringify(error, opts.whitelist))` */
  function WhitelistCapture(o: Options, e: Value): Value {
    Serialize(e, o.whitelist)
  }

  function Expose(o: Options, e: Value): Value
    requires IsError(e)
  {
    match e.toJSON
    case Some(r) => r
    case None =>
      var own := if o.getOwnProperties then EntriesOf(OwnCapture(e)) else [];
      Obj(Assign(Assign([], own), EntriesOf(WhitelistCapture(o, e))))
  }

  // ---------------------------------------------------------------------------
  // The event transform, `opts => event => event`.
  // ---------------------------------------------------------------------------

  function ExposeIfError(o: Options, x: Value): Value {
    if IsError(x) then Expose(o, x) else x
  }

  /** `data` after the `Object.keys(event.data).forEach` loop. */
  function ExposeFirstLevel(o: Options, d: Value): Value {
    match d
    case Obj(ps) => Obj(seq(|ps|, i requires 0 <= i < |ps| => (ps[i].0, ExposeIfError(o, ps[i].1))))
    case Arr(items) => Arr(seq(|items|, i requires 0 <= i < |items| => ExposeIfError(o, items[i])))
    case _ => d
  }

  /** Only an `error` event whose `data` is an object has its `data` rewritten. */
  predicate Rewrites(event: Value) {
    Member(event, "level") == Some(Str("error")) && Member(event, "data").Some? && IsObject(Member(event, "data").value)
  }

  function Transform(o: Options, event: Value): (r: Value)
    ensures !Rewrites(event) ==> r == event
    ensures forall k :: k != "data" ==> Member(r, k) == Member(event, k)
    ensures Member(r, "data").Some? <==> Member(event, "data").Some?
    ensures Rewrites(event) && IsError(Member(event, "data").value) ==>
      Member(r, "data") == Some(Expose(o, Member(event, "data").value))
    ensures Rewrites(event) && !IsError(Member(event, "data").value) ==>
      Member(r, "data") == Some(ExposeFirstLevel(o, Member(event, "data").value))
  {
    if Member(event, "level") != Some(Str("error")) then event
    else
      match Member(event, "data")
      case None => event
      case Some(d) =>
        if IsError(d) then SetMember(event, "data", Expose(o, d))
        else if IsObject(d) then SetMember(event, "data", ExposeFirstLevel(o, d))
        else event
  }

  /** The exported factory: the options are the defaults overridden by `opts`. */
  function Interceptor(opts: Overrides): (f: Value -> Value)
    ensures forall event :: Member(event, "level") != Some(Str("error")) ==> f(event) == event
    ensures forall event, k :: k != "data" ==> Member(f(event), k) == Member(event, k)
  {
    event => Transform(Override(DefaultOptions, opts), event)
  }

  // ---------------------------------------------------------------------------
  // Properties of the own-property capture
  // ---------------------------------------------------------------------------

  /** An error with its own `toJSON` result. */
  predicate HasToJSON(x: Value) {
    x.Err? && x.toJSON.Some?
  }

  /** Serializing keeps the kind of a value that has no `toJSON`. */
  lemma SerializeKind(x: Value, names: seq<string>)
    requires !HasToJSON(x)
    ensures IsObject(Serialize(x, names)) <==> IsObject(x)
    ensures !IsObject(x) ==> Serialize(x, names) == x
  {
  }

  /** The capture visits every entry of the serialized object and keeps its key. */
  lemma CaptureEntriesKeys(v: Value, ps: Props)
    ensures KeyList(seq(|ps|, i requires 0 <= i < |ps| => CaptureEntry(v, ps[i]))) == KeyList(ps)
  {
  }

  /**
   * Capturing an error without `toJSON` keeps all its own properties,
   * enumerable or not: a primitive as it is, an object (without `toJSON`)
   * replaced by its own capture.
   */
  lemma OwnCaptureOfError(e: Value)
    requires e.Err? && e.toJSON.None?
    ensures OwnCapture(e).Obj?
    ensures Keys(OwnCapture(e).props) == Keys(e.own)
    ensures DistinctKeys(OwnCapture(e).props)
    ensures forall k | k in Keys(e.own) && !IsObject(Get(e.own, k).value) ::
      Get(OwnCapture(e).props, k) == Get(e.own, k)
    ensures forall k | k in Keys(e.own) && IsObject(Get(e.own, k).value) && !HasToJSON(Get(e.own, k).value) ::
      Get(OwnCapture(e).props, k) == Some(OwnCapture(Get(e.own, k).value))
  {
    var names := OwnNames(e);
    var ps := Pick(e, names, names);
    assert Serialize(e, names) == Obj(ps);
    var r := seq(|ps|, i requires 0 <= i < |ps| => CaptureEntry(e, ps[i]));
    assert OwnCapture(e) == Obj(r);
    CaptureEntriesKeys(e, ps);
    PickKeys(e, names, names);
    assert Keys(ps) == Keys(e.own) by {
      forall k ensures k in Keys(ps) <==> k in Keys(e.own) {
        assert k in names <==> k in Keys(e.own) by {
          if k in Keys(e.own) {
            var m :| 0 <= m < |e.own| && e.own[m].0 == k;
            assert names[m] == k;
          }
        }
      }
    }
    forall k | k in Keys(e.own)
      ensures Get(r, k) == Some(CaptureEntry(e, (k, Serialize(Get(e.own, k).value, names))).1)
    {
      PickGet(e, names, names, k);
      SameKeyList(ps, r, k);
    }
    forall k | k in Keys(e.own) && !IsObject(Get(e.own, k).value)
      ensures Get(r, k) == Get(e.own, k)
    {
      SerializeKind(Get(e.own, k).value, names);
    }
    forall k | k in Keys(e.own) && IsObject(Get(e.own, k).value) && !HasToJSON(Get(e.own, k).value)
      ensures Get(r, k) == Some(OwnCapture(Get(e.own, k).value))
    {
      SerializeKind(Get(e.own, k).value, names);
      CaptureMemberIs(e, k);
    }
    PickGet(e, names, names, "");
    SameKeyList(ps, r, "");
  }

  /** On data that is already plain JSON, the capture changes nothing: nested objects keep their shape. */
  lemma {:induction false} OwnCaptureKeepsData(v: Value)
    requires PlainData(v)
    ensures OwnCapture(v) == v
    decreases v, 3
  {
    match v
    case Arr(_) => ArrayCaptureKeepsData(v);
    case Obj(_) => ObjectCaptureKeepsData(v);
    case _ => SerializeKind(v, OwnNames(v));
  }

  lemma {:induction false} ArrayCaptureKeepsData(v: Value)
    requires v.Arr? && PlainData(v)
    ensures OwnCapture(v) == v
    decreases v, 2
  {
    var names := OwnNames(v);
    var items := v.items;
    var ser := seq(|items|, i requires 0 <= i < |items| => Serialize(items[i], names));
    assert Serialize(v, names) == Arr(ser);
    var r := seq(|ser|, i requires 0 <= i < |ser| => CaptureElement(v, i, ser[i]));
    assert OwnCapture(v) == Arr(r);
    forall i | 0 <= i < |items| ensures r[i] == items[i] {
      assert PlainData(items[i]);
      SerializeKind(items[i], names);
      if IsObject(items[i]) {
        OwnCaptureKeepsData(items[i]);
        assert CaptureIndex(v, i) == Some(items[i]);
      }
    }
    assert r == items;
  }

  lemma {:induction false} ObjectCaptureKeepsData(v: Value)
    requires v.Obj? && PlainData(v)
    ensures OwnCapture(v) == v
    decreases v, 2
  {
    var ps := v.props;
    var names := KeyList(ps);
    assert OwnNames(v) == names;
    assert names[..|ps|] == names;
    PickOwnKeys(ps, names, |ps|);
    var ser := Pick(v, names, names);
    assert Serialize(v, names) == Obj(ser);
    EntriesCaptureKeepsData(v, names, ser);
  }

  lemma {:induction false} EntriesCaptureKeepsData(v: Value, names: seq<string>, ser: Props)
    requires v.Obj? && PlainData(v)
    requires |ser| == |v.props|
    requires forall i | 0 <= i < |ser| :: ser[i] == (v.props[i].0, Serialize(v.props[i].1, names))
    ensures seq(|ser|, i requires 0 <= i < |ser| => CaptureEntry(v, ser[i])) == v.props
    decreases v, 1
  {
    forall i | 0 <= i < |ser| ensures CaptureEntry(v, ser[i]) == v.props[i] {
      EntryCaptureKeepsData(v, i, names);
    }
  }

  lemma {:induction false} EntryCaptureKeepsData(v: Value, i: nat, names: seq<string>)
    requires v.Obj? && PlainData(v) && i < |v.props|
    ensures CaptureEntry(v, (v.props[i].0, Serialize(v.props[i].1, names))) == v.props[i]
    decreases v, 0
  {
    var ps := v.props;
    var x := ps[i].1;
    assert PlainData(x);
    SerializeKind(x, names);
    if IsObject(x) {
      IndexOfIs(ps, ps[i].0, i);
      OwnCaptureKeepsData(x);
      assert CaptureMember(v, ps[i].0) == Some(x);
    }
  }

  /** The capture contains no error anywhere. */
  lemma {:induction false} OwnCaptureNoError(v: Value)
    ensures NoError(OwnCapture(v))
    decreases v, 3
  {
    var names := OwnNames(v);
    SerializeNoError(v, names);
    match Serialize(v, names)
    case Obj(ps) =>
      forall i | 0 <= i < |ps| ensures NoError(CaptureEntry(v, ps[i]).1) {
        assert NoError(ps[i].1);
        CaptureMemberNoError(v, ps[i].0);
      }
    case Arr(items) =>
      forall i | 0 <= i < |items| ensures NoError(CaptureElement(v, i, items[i])) {
        assert NoError(items[i]);
        CaptureIndexNoError(v, i);
      }
    case _ =>
  }

  lemma {:induction false} CaptureIndexNoError(v: Value, i: nat)
    ensures CaptureIndex(v, i).Some? ==> NoError(CaptureIndex(v, i).value)
    decreases v, 1
  {
    match v
    case Arr(items) => if i < |items| { OwnCaptureNoError(items[i]); }
    case _ => CaptureMemberNoError(v, NatToString(i));
  }

  lemma {:induction false} CaptureMemberNoError(v: Value, k: string)
    ensures CaptureMember(v, k).Some? ==> NoError(CaptureMember(v, k).value)
    decreases v, 0
  {
    match v
    case Obj(ps) =>
      var i := IndexOf(ps, k);
      if i < |ps| { OwnCaptureNoError(ps[i].1); }
    case Err(own, inh, _) =>
      var i := IndexOf(own, k);
      var j := IndexOf(inh, k);
      if i < |own| { OwnCaptureNoError(own[i].1); }
      else if j < |inh| { OwnCaptureNoError(inh[j].1); }
    case _ =>
  }

  // ---------------------------------------------------------------------------
  // Properties of `expose`
  // ---------------------------------------------------------------------------

  /**
   * Without `toJSON`, each property of the result is the whitelist capture's
   * when the whitelist names it and the error has it (own or inherited), and
   * otherwise the own-property capture's when that capture is enabled.
   */
  lemma ExposeGet(o: Options, e: Value, k: string)
    requires e.Err? && e.toJSON.None?
    ensures Expose(o, e).Obj?
    ensures DistinctKeys(Expose(o, e).props)
    ensures Get(Expose(o, e).props, k) ==
      if k in o.whitelist && Member(e, k).Some? then Some(Serialize(Member(e, k).value, o.whitelist))
      else if o.getOwnProperties then Get(EntriesOf(OwnCapture(e)), k)
      else None
  {
    OwnCaptureOfError(e);
    var own := EntriesOf(OwnCapture(e));
    var base := if o.getOwnProperties then own else [];
    AssignOntoEmpty(base);
    var wl := Pick(e, o.whitelist, o.whitelist);
    assert Serialize(e, o.whitelist) == SerializeBody(e, o.whitelist);
    assert WhitelistCapture(o, e) == Obj(wl);
    PickGet(e, o.whitelist, o.whitelist, k);
    AssignGet(base, wl, k);
  }

  /** The keys `expose` leaves: the own names when they are captured, and the whitelisted names the error has. */
  lemma ExposeKeys(o: Options, e: Value)
    requires e.Err? && e.toJSON.None?
    ensures Expose(o, e).Obj?
    ensures Keys(Expose(o, e).props) ==
      (if o.getOwnProperties then Keys(e.own) else {}) + (set k | k in o.whitelist && Member(e, k).Some?)
  {
    ExposeContents(o, e);
  }

  /**
   * Without `toJSON`, the result holds the error's own properties (when
   * `getOwnProperties`) and the whitelisted names the error has; on a shared
   * name the whitelist capture wins; an own property the whitelist does not
   * name is the own-property capture's: a primitive as it is, an object
   * replaced by its recursive capture.
   */
  lemma ExposeContents(o: Options, e: Value)
    requires e.Err? && e.toJSON.None?
    ensures Expose(o, e).Obj?
    ensures DistinctKeys(Expose(o, e).props)
    ensures Keys(Expose(o, e).props) ==
      (if o.getOwnProperties then Keys(e.own) else {}) + (set k | k in o.whitelist && Member(e, k).Some?)
    ensures forall k | k in o.whitelist && Member(e, k).Some? ::
      Get(Expose(o, e).props, k) == Some(Serialize(Member(e, k).value, o.whitelist))
    ensures forall k | o.getOwnProperties && k in Keys(e.own) && k !in o.whitelist && !IsObject(Get(e.own, k).value) ::
      Get(Expose(o, e).props, k) == Get(e.own, k)
    ensures forall k | o.getOwnProperties && k in Keys(e.own) && k !in o.whitelist &&
                       IsObject(Get(e.own, k).value) && !HasToJSON(Get(e.own, k).value) ::
      Get(Expose(o, e).props, k) == Some(OwnCapture(Get(e.own, k).value))
  {
    OwnCaptureOfError(e);
    ExposeGet(o, e, "");
    var r := Expose(o, e).props;
    forall k ensures k in Keys(r) <==>
      (o.getOwnProperties && k in Keys(e.own)) || (k in o.whitelist && Member(e, k).Some?)
    {
      ExposeGet(o, e, k);
    }
    forall k | k in o.whitelist && Member(e, k).Some?
      ensures Get(r, k) == Some(Serialize(Member(e, k).value, o.whitelist))
    {
      ExposeGet(o, e, k);
    }
    forall k | o.getOwnProperties && k in Keys(e.own) && k !in o.whitelist
      ensures Get(r, k) == Get(OwnCapture(e).props, k)
    {
      ExposeGet(o, e, k);
    }
  }

  /** With `getOwnProperties` off, the result is exactly the whitelist capture. */
  lemma ExposeWithoutOwnProperties(o: Options, e: Value)
    requires e.Err? && e.toJSON.None? && !o.getOwnProperties
    ensures Expose(o, e) == Serialize(e, o.whitelist)
    ensures forall k | k in Keys(Expose(o, e).props) :: k in o.whitelist && Member(e, k).Some?
  {
    var wl := Pick(e, o.whitelist, o.whitelist);
    PickGet(e, o.whitelist, o.whitelist, "");
    AssignOntoEmpty(wl);
    PickKeys(e, o.whitelist, o.whitelist);
  }

  /** `toJSON`, when the error has one, decides the result alone. */
  lemma ExposeToJSON(o1: Options, o2: Options, e: Value)
    requires e.Err? && e.toJSON.Some?
    ensures Expose(o1, e) == Expose(o2, e) == e.toJSON.value
  {
  }

  /** No error is left in the result unless `toJSON` put one there. */
  lemma ExposeNoError(o: Options, e: Value)
    requires e.Err? && (e.toJSON.Some? ==> NoError(e.toJSON.value))
    ensures NoError(Expose(o, e))
  {
    if e.toJSON.None? {
      OwnCaptureOfError(e);
      OwnCaptureNoError(e);
      SerializeNoError(e, o.whitelist);
      var own := EntriesOf(OwnCapture(e));
      var base := if o.getOwnProperties then own else [];
      var wl := Pick(e, o.whitelist, o.whitelist);
      assert Serialize(e, o.whitelist) == SerializeBody(e, o.whitelist);
      assert WhitelistCapture(o, e) == Obj(wl);
      var a := Assign([], base);
      var r := Assign(a, wl);
      forall i | 0 <= i < |r| ensures NoError(r[i].1) {
        assert r[i] in r;
        if r[i] in wl {
          var j :| 0 <= j < |wl| && wl[j] == r[i];
        } else {
          assert r[i] in base;
          var j :| 0 <= j < |base| && base[j] == r[i];
        }
      }
    }
  }

  // ---------------------------------------------------------------------------
  // Properties of the event transform
  // ---------------------------------------------------------------------------

  /**
   * In an object `data`, the keys stay in place, an Error value is exposed
   * and every other value, including one holding errors deeper down, stays
   * as it is.
   */
  lemma {:induction false} ExposeFirstLevelObject(o: Options, d: Value, k: string)
    requires d.Obj?
    ensures ExposeFirstLevel(o, d).Obj?
    ensures KeyList(ExposeFirstLevel(o, d).props) == KeyList(d.props)
    ensures Get(ExposeFirstLevel(o, d).props, k) ==
      match Get(d.props, k)
      case Some(x) => Some(if IsError(x) then Expose(o, x) else x)
      case None => None
  {
    var r := ExposeFirstLevel(o, d).props;
    assert KeyList(r) == KeyList(d.props);
    SameKeyList(d.props, r, k);
  }

  /** The transform keeps `data` in place when nothing at its first level is an error. */
  lemma ExposeFirstLevelFixed(o: Options, d: Value)
    requires IsObject(d) && !IsError(d)
    requires d.Obj? ==> forall i | 0 <= i < |d.props| :: !IsError(d.props[i].1)
    requires d.Arr? ==> forall i | 0 <= i < |d.items| :: !IsError(d.items[i])
    ensures ExposeFirstLevel(o, d) == d
  {
    match d
    case Obj(ps) => assert ExposeFirstLevel(o, d).props == ps;
    case Arr(items) => assert ExposeFirstLevel(o, d).items == items;
  }

  /** A `toJSON` result that holds no error. */
  predicate PlainToJSON(x: Value) {
    IsError(x) ==> x.toJSON.None? || NoError(x.toJSON.value)
  }

  /** Every error the transform would expose in `data` has a plain `toJSON` result, or none. */
  predicate PlainExposures(d: Value) {
    && PlainToJSON(d)
    && (d.Obj? ==> forall i | 0 <= i < |d.props| :: PlainToJSON(d.props[i].1))
    && (d.Arr? ==> forall i | 0 <= i < |d.items| :: PlainToJSON(d.items[i]))
  }

  /** An exposed error with a plain `toJSON` result, or none, has no error left at its first level. */
  lemma ExposedFixed(o: Options, d: Value)
    requires IsError(d) && PlainToJSON(d) && IsObject(Expose(o, d))
    ensures ExposeFirstLevel(o, Expose(o, d)) == Expose(o, d)
  {
    ExposeNoError(o, d);
    ExposeFirstLevelFixed(o, Expose(o, d));
  }

  /** Exposing the first level twice exposes nothing more. */
  lemma ExposeFirstLevelTwice(o: Options, d: Value)
    requires IsObject(d) && !IsError(d) && PlainExposures(d)
    ensures ExposeFirstLevel(o, ExposeFirstLevel(o, d)) == ExposeFirstLevel(o, d)
  {
    var d1 := ExposeFirstLevel(o, d);
    match d
    case Obj(ps) =>
      forall i | 0 <= i < |ps| ensures !IsError(d1.props[i].1) {
        if IsError(ps[i].1) { ExposeNoError(o, ps[i].1); }
      }
    case Arr(items) =>
      forall i | 0 <= i < |items| ensures !IsError(d1.items[i]) {
        if IsError(items[i]) { ExposeNoError(o, items[i]); }
      }
    ExposeFirstLevelFixed(o, d1);
  }

  /**
   * The transform is idempotent: a second application to an event it has
   * rewritten finds no error left in `data` to expose.
   */
  lemma TransformIdempotent(o: Options, event: Value)
    requires Member(event, "data").Some? ==> PlainExposures(Member(event, "data").value)
    ensures Transform(o, Transform(o, event)) == Transform(o, event)
  {
    var r := Transform(o, event);
    if Rewrites(event) && Rewrites(r) {
      var d := Member(event, "data").value;
      var d1 := Member(r, "data").value;
      if IsError(d) {
        ExposedFixed(o, d);
      } else {
        ExposeFirstLevelTwice(o, d);
      }
      assert ExposeFirstLevel(o, d1) == d1;
      SetMemberSame(r, "data", d1);
    }
  }

  /** An option the caller sets replaces the default; one it leaves out keeps the default. */
  lemma OverrideDefaults(opts: Overrides)
    ensures Override(DefaultOptions, opts).getOwnProperties == (opts.getOwnProperties != Some(false))
    ensures opts.whitelist.Some? ==> Override(DefaultOptions, opts).whitelist == opts.whitelist.value
    ensures opts.whitelist.None? ==> Override(DefaultOptions, opts).whitelist == ["message", "name", "stack"]
  {
  }

  // ---------------------------------------------------------------------------
  // The loops of the source, step by step
  // ---------------------------------------------------------------------------

  /**
   * `getOwnPropertyNames(obj)` as the source runs it: serialize, then walk
   * the own names of the copy and overwrite each object-valued one with the
   * recursive capture of the same property of `obj`.
   */
  method CaptureOwnProperties(v: Value) returns (r: Value)
    ensures r == OwnCapture(v)
    decreases v, 2
  {
    var newObj := Serialize(v, OwnNames(v));
    match newObj
    case Obj(ps) =>
      var out := ps;
      for i := 0 to |ps|
        invariant |out| == |ps|
        invariant forall j | 0 <= j < i :: out[j] == CaptureEntry(v, ps[j])
        invariant forall j | i <= j < |ps| :: out[j] == ps[j]
      {
        var key := ps[i].0;
        if IsObject(ps[i].1) {
          var c := CaptureProperty(v, key);
          if c.Some? {
            out := out[i := (key, c.value)];
          }
        }
      }
      assert out == seq(|ps|, i requires 0 <= i < |ps| => CaptureEntry(v, ps[i]));
      r := Obj(out);
    case Arr(items) =>
      var out := items;
      for i := 0 to |items|
        invariant |out| == |items|
        invariant forall j | 0 <= j < i :: out[j] == CaptureElement(v, j, items[j])
        invariant forall j | i <= j < |items| :: out[j] == items[j]
      {
        if IsObject(items[i]) {
          var c := CaptureItem(v, i);
          if c.Some? {
            out := out[i := c.value];
          }
        }
      }
      assert out == seq(|items|, i requires 0 <= i < |items| => CaptureElement(v, i, items[i]));
      r := Arr(out);
    case _ =>
      r := newObj;
  }

  /** The recursive call on `obj[key]`, skipped where the property is `undefined` or `null`. */
  method CaptureProperty(v: Value, key: string) returns (c: Option<Value>)
    ensures c == CaptureMember(v, key)
    decreases v, 0
  {
    c := None;
    match v
    case Obj(ps) =>
      var i := IndexOf(ps, key);
      if i < |ps| && ps[i].1 != Null {
        var x := CaptureOwnProperties(ps[i].1);
        c := Some(x);
      }
    case Err(own, inh, _) =>
      var i := IndexOf(own, key);
      var j := IndexOf(inh, key);
      if i < |own| {
        if own[i].1 != Null {
          var x := CaptureOwnProperties(own[i].1);
          c := Some(x);
        }
      } else if j < |inh| && inh[j].1 != Null {
        var x := CaptureOwnProperties(inh[j].1);
        c := Some(x);
      }
    case _ =>
  }

  /** The recursive call on `obj[i]` when `newObj` is an array. */
  method CaptureItem(v: Value, i: nat) returns (c: Option<Value>)
    ensures c == CaptureIndex(v, i)
    decreases v, 1
  {
    match v
    case Arr(items) =>
      c := None;
      if i < |items| && items[i] != Null {
        var x := CaptureOwnProperties(items[i]);
        c := Some(x);
      }
    case _ =>
      c := CaptureProperty(v, NatToString(i));
  }

  /**
   * The event transform as the source runs it: `event.data` is exposed when
   * it is an Error, or rewritten key by key when it is another object.
   */
  method TransformEvent(o: Options, event: Value) returns (r: Value)
    ensures r == Transform(o, event)
  {
    r := event;
    if Member(event, "level") != Some(Str("error")) {
      return;
    }
    var data := Member(event, "data");
    if data.None? {
      return;
    }
    var d := data.value;
    if IsError(d) {
      r := SetMember(event, "data", Expose(o, d));
    } else if d.Obj? {
      var ps := d.props;
      for i := 0 to |ps|
        invariant |ps| == |d.props|
        invariant forall j | 0 <= j < i :: ps[j] == (d.props[j].0, ExposeIfError(o, d.props[j].1))
        invariant forall j | i <= j < |ps| :: ps[j] == d.props[j]
      {
        if IsError(ps[i].1) {
          ps := ps[i := (ps[i].0, Expose(o, ps[i].1))];
        }
      }
      assert Obj(ps) == ExposeFirstLevel(o, d);
      r := SetMember(event, "data", Obj(ps));
    } else if d.Arr? {
      var items := d.items;
      for i := 0 to |items|
        invariant |items| == |d.items|
        invariant forall j | 0 <= j < i :: items[j] == ExposeIfError(o, d.items[j])
        invariant forall j | i <= j < |items| :: items[j] == d.items[j]
      {
        if IsError(items[i]) {
          items := items[i := Expose(o, items[i])];
        }
      }
      assert Arr(items) == ExposeFirstLevel(o, d);
      r := SetMember(event, "data", Arr(items));
    }
  }

  // ---------------------------------------------------------------------------
  // The source as written, where it departs from the model above
  // ---------------------------------------------------------------------------

  /**
   * The `CustomError` of the tests: `name`, `customData` and `nestedData` are
   * assigned in its constructor; its `stack` is produced at run time.
   */
  function Custom(stack: string): Value {
    Err(
      [ ("stack", Str(stack)), ("message", Str("custom boom")), ("name", Str("CustomError")),
        ("customData", Str("custom data")), ("nestedData", Obj([("isNested", Bool(true))])) ],
      [("name", Str("Error"))], None)
  }

  /** The own property names of the custom error. */
  lemma CustomOwnKeys(stack: string)
    ensures Keys(Custom(stack).own) == {"stack", "message", "name", "customData", "nestedData"}
  {
    var own := Custom(stack).own;
    assert own[0].0 == "stack" && own[1].0 == "message" && own[2].0 == "name";
    assert own[3].0 == "customData" && own[4].0 == "nestedData";
  }

  /**
   * With the default options, the custom error is exposed with exactly its
   * own properties, the whitelisted ones among them included.
   */
  lemma CustomErrorKeys(stack: string)
    ensures Expose(DefaultOptions, Custom(stack)).Obj?
    ensures Keys(Expose(DefaultOptions, Custom(stack)).props) == {"stack", "message", "name", "customData", "nestedData"}
  {
    CustomOwnKeys(stack);
    ExposeKeys(DefaultOptions, Custom(stack));
    var listed := set k | k in DefaultOptions.whitelist && Member(Custom(stack), k).Some?;
    assert listed <= Keys(Custom(stack).own);
  }

  /** The whitelisted `name` is read from the custom error itself, not from its prototype. */
  lemma CustomErrorName(stack: string)
    ensures Expose(DefaultOptions, Custom(stack)).Obj?
    ensures Get(Expose(DefaultOptions, Custom(stack)).props, "name") == Some(Str("CustomError"))
  {
    assert Custom(stack).own[0].0 != "name" && Custom(stack).own[1].0 != "name";
    IndexOfIs(Custom(stack).own, "name", 2);
    ExposeGet(DefaultOptions, Custom(stack), "name");
  }

  /** An own property the whitelist does not name, holding plain data, is exposed as it is. */
  lemma ExposeOwnPlain(o: Options, e: Value, k: string)
    requires e.Err? && e.toJSON.None? && o.getOwnProperties
    requires k in Keys(e.own) && k !in o.whitelist && PlainData(Get(e.own, k).value)
    ensures Expose(o, e).Obj?
    ensures Get(Expose(o, e).props, k) == Get(e.own, k)
  {
    var x := Get(e.own, k).value;
    OwnCaptureKeepsData(x);
    SerializeKind(x, OwnNames(e));
    ExposeContents(o, e);
  }

  /** `customData`, an own primitive the whitelist does not name, keeps its value. */
  lemma CustomErrorData(stack: string)
    ensures Expose(DefaultOptions, Custom(stack)).Obj?
    ensures Get(Expose(DefaultOptions, Custom(stack)).props, "customData") == Some(Str("custom data"))
  {
    var e := Custom(stack);
    CustomOwnKeys(stack);
    IndexOfIs(e.own, "customData", 3);
    assert Get(e.own, "customData") == Some(Str("custom data"));
    ExposeOwnPlain(DefaultOptions, e, "customData");
  }

  /** The nested object keeps its shape. */
  lemma CustomErrorNested(stack: string)
    ensures Expose(DefaultOptions, Custom(stack)).Obj?
    ensures Get(Expose(DefaultOptions, Custom(stack)).props, "nestedData") == Some(Obj([("isNested", Bool(true))]))
  {
    var e := Custom(stack);
    var nested := Obj([("isNested", Bool(true))]);
    CustomOwnKeys(stack);
    IndexOfIs(e.own, "nestedData", 4);
    assert Get(e.own, "nestedData") == Some(nested);
    assert PlainData(nested);
    ExposeOwnPlain(DefaultOptions, e, "nestedData");
  }

  /**
   * Each call of the source's transform runs `Object.assign(defaultOptions,
   * opts)`: it writes `opts` into the one defaults object every interceptor
   * shares, and uses what that object then holds.  `shared` is that object
   * before the call; the first component of the result is it after the call.
   */
  function InterceptAsWritten(shared: Options, opts: Overrides, event: Value): (r: (Options, Value))
    ensures r.1 == Transform(r.0, event)
    ensures opts.getOwnProperties.Some? ==> r.0.getOwnProperties == opts.getOwnProperties.value
    ensures opts.getOwnProperties.None? ==> r.0.getOwnProperties == shared.getOwnProperties
    ensures opts.whitelist.Some? ==> r.0.whitelist == opts.whitelist.value
    ensures opts.whitelist.None? ==> r.0.whitelist == shared.whitelist
  {
    var options := Override(shared, opts);
    (options, Transform(options, event))
  }

  /**
   * A plain `new Error('boom')`: `stack` and `message` are own properties,
   * `name` comes from the prototype; the stack is produced at run time.
   */
  function Boom(stack: string): Value {
    Err([("stack", Str(stack)), ("message", Str("boom"))], [("name", Str("Error"))], None)
  }

  /** An `error` event carrying `{ error }` as its data. */
  function ErrorEvent(error: Value): Value {
    Obj([("data", Obj([("error", error)])), ("event", Str("User experienced a crash")), ("level", Str("error"))])
  }

  /** The error the transform leaves in the `data` of `ErrorEvent(error)`. */
  lemma ErrorEventExposes(o: Options, error: Value)
    requires IsError(error)
    ensures Member(Transform(o, ErrorEvent(error)), "data") == Some(Obj([("error", Expose(o, error))]))
  {
    var ev := ErrorEvent(error);
    IndexOfIs(ev.props, "level", 2);
    IndexOfIs(ev.props, "data", 0);
    var d := Obj([("error", error)]);
    assert ExposeFirstLevel(o, d).props == [("error", Expose(o, error))];
  }

  /** The own property names of `Boom`. */
  lemma BoomOwnKeys(stack: string)
    ensures Keys(Boom(stack).own) == {"stack", "message"}
  {
    var own := Boom(stack).own;
    assert own[0].0 == "stack" && own[1].0 == "message";
  }

  /** `name` is read from the prototype of `Boom`. */
  lemma BoomListed(stack: string)
    ensures (set k | k in ["name"] && Member(Boom(stack), k).Some?) == {"name"}
  {
    BoomOwnKeys(stack);
    assert Boom(stack).inherited[0].0 == "name";
    assert Member(Boom(stack), "name").Some?;
  }

  /** A whitelist of `name` alone, without the own-property capture, exposes `Boom` as `{ name }`. */
  lemma BoomNameOnly(stack: string)
    ensures Keys(Expose(Options(false, ["name"]), Boom(stack)).props) == {"name"}
  {
    ExposeKeys(Options(false, ["name"]), Boom(stack));
    BoomListed(stack);
  }

  /** With the own-property capture, `stack` and `message` are exposed as well. */
  lemma BoomOwnAndName(stack: string)
    ensures Keys(Expose(Options(true, ["name"]), Boom(stack)).props) == {"stack", "message", "name"}
  {
    ExposeKeys(Options(true, ["name"]), Boom(stack));
    BoomOwnKeys(stack);
    BoomListed(stack);
  }

  /**
   * The options leak from one interceptor to the next: after an interceptor
   * made with `{ getOwnProperties: false }` has run once, one made with
   * `{ whitelist: ['name'] }` exposes a plain error as `{ name }` only,
   * where the defaults overridden by its own options keep `stack` and
   * `message` as well.
   */
  lemma DefaultsLeak(first: Value, stack: string)
    ensures var (shared, _) := InterceptAsWritten(DefaultOptions, Overrides(Some(false), None), first);
            var (_, out) := InterceptAsWritten(shared, Overrides(None, Some(["name"])), ErrorEvent(Boom(stack)));
            Member(out, "data") == Some(Obj([("error", Expose(Options(false, ["name"]), Boom(stack)))]))
    ensures Member(Interceptor(Overrides(None, Some(["name"])))(ErrorEvent(Boom(stack))), "data") ==
      Some(Obj([("error", Expose(Options(true, ["name"]), Boom(stack)))]))
  {
    var (shared, _) := InterceptAsWritten(DefaultOptions, Overrides(Some(false), None), first);
    assert shared == Options(false, ["message", "name", "stack"]);
    var used := Override(shared, Overrides(None, Some(["name"])));
    assert used == Options(false, ["name"]);
    ErrorEventExposes(used, Boom(stack));
    var fixed := Override(DefaultOptions, Overrides(None, Some(["name"])));
    assert fixed == Options(true, ["name"]);
    ErrorEventExposes(fixed, Boom(stack));
  }

  /** The first interceptor made, while the shared options are still the defaults, is the corrected one. */
  lemma FirstInterceptAgrees(opts: Overrides, event: Value)
    ensures InterceptAsWritten(DefaultOptions, opts, event).1 == Interceptor(opts)(event)
  {
  }

  /**
   * An interceptor whose options set both `getOwnProperties` and `whitelist`
   * transforms as the corrected one does, whatever earlier interceptors left
   * in the shared options; the leak needs an option left unset.
   */
  lemma InterceptorUsesOwnOptions(shared: Options, opts: Overrides, event: Value)
    requires opts.getOwnProperties.Some? && opts.whitelist.Some?
    ensures InterceptAsWritten(shared, opts, event).1 == Interceptor(opts)(event)
  {
    assert Override(shared, opts) == Override(DefaultOptions, opts);
  }

  /**
   * `getOwnPropertyNames(obj)` as written, where `Object.getOwnPropertyNames`
   * throws on `undefined` and `null`: `None` when the capture throws.  It
   * throws when the serialized copy has an object where `obj` itself has no
   * property, or `null`: a `toJSON` result can put one there.
   */
  function OwnCaptureAsWritten(v: Value): Option<Value>
    decreases v, 4
  {
    match Serialize(v, OwnNames(v))
    case Obj(ps) =>
      (match CaptureEntriesAsWritten(v, ps) case Some(qs) => Some(Obj(qs)) case None => None)
    case Arr(items) =>
      (match CaptureElementsAsWritten(v, items) case Some(xs) => Some(Arr(xs)) case None => None)
    case first => Some(first)
  }

  /** The `forEach` over the entries `ps` of the copy, stopping at the first capture that throws. */
  function CaptureEntriesAsWritten(v: Value, ps: Props): Option<Props>
    decreases v, 3, |ps|
  {
    if ps == [] then Some([])
    else
      match CaptureEntriesAsWritten(v, ps[..|ps| - 1])
      case None => None
      case Some(init) =>
        match CaptureEntryAsWritten(v, ps[|ps| - 1])
        case None => None
        case Some(e) => Some(init + [e])
  }

  /** The `forEach` over the elements of the copy when it is an array. */
  function CaptureElementsAsWritten(v: Value, items: seq<Value>): Option<seq<Value>>
    decreases v, 3, |items|
  {
    if items == [] then Some([])
    else
      match CaptureElementsAsWritten(v, items[..|items| - 1])
      case None => None
      case Some(init) =>
        match CaptureElementAsWritten(v, |items| - 1, items[|items| - 1])
        case None => None
        case Some(x) => Some(init + [x])
  }

  function CaptureEntryAsWritten(v: Value, e: (string, Value)): Option<(string, Value)>
    decreases v, 2
  {
    if IsObject(e.1) then
      match CaptureMemberAsWritten(v, e.0)
      case Some(c) => Some((e.0, c))
      case None => None
    else Some(e)
  }

  function CaptureElementAsWritten(v: Value, i: nat, x: Value): Option<Value>
    decreases v, 2
  {
    if IsObject(x) then CaptureIndexAsWritten(v, i) else Some(x)
  }

  function CaptureIndexAsWritten(v: Value, i: nat): Option<Value>
    decreases v, 1
  {
    match v
    case Arr(items) => if i < |items| && items[i] != Null then OwnCaptureAsWritten(items[i]) else None
    case _ => CaptureMemberAsWritten(v, NatToString(i))
  }

  function CaptureMemberAsWritten(v: Value, k: string): Option<Value>
    decreases v, 0
  {
    match v
    case Obj(ps) =>
      var i := IndexOf(ps, k);
      if i < |ps| && ps[i].1 != Null then OwnCaptureAsWritten(ps[i].1) else None
    case Err(own, inh, _) =>
      var i := IndexOf(own, k);
      var j := IndexOf(inh, k);
      if i < |own| then (if own[i].1 != Null then OwnCaptureAsWritten(own[i].1) else None)
      else if j < |inh| && inh[j].1 != Null then OwnCaptureAsWritten(inh[j].1)
      else None
    case _ => None
  }

  /** Where the source's capture does not throw, it agrees with the model's. */
  lemma {:induction false} OwnCaptureAgrees(v: Value)
    ensures OwnCaptureAsWritten(v).Some? ==> OwnCaptureAsWritten(v).value == OwnCapture(v)
    decreases v, 4
  {
    match Serialize(v, OwnNames(v))
    case Obj(ps) => EntriesAgree(v, ps);
    case Arr(items) =>
      if OwnCaptureAsWritten(v).Some? {
        ElementsAgree(v, items);
        var xs := CaptureElementsAsWritten(v, items).value;
        assert xs == seq(|items|, i requires 0 <= i < |items| => CaptureElement(v, i, items[i]));
      }
    case _ =>
  }

  lemma {:induction false} EntriesAgree(v: Value, ps: Props)
    ensures CaptureEntriesAsWritten(v, ps).Some? ==>
      CaptureEntriesAsWritten(v, ps).value == seq(|ps|, i requires 0 <= i < |ps| => CaptureEntry(v, ps[i]))
    decreases v, 3, |ps|
  {
    if ps != [] && CaptureEntriesAsWritten(v, ps).Some? {
      var n := |ps| - 1;
      EntriesAgree(v, ps[..n]);
      CaptureMemberAgrees(v, ps[n].0);
    }
  }

  lemma {:induction false} ElementsAgree(v: Value, items: seq<Value>)
    requires CaptureElementsAsWritten(v, items).Some?
    ensures |CaptureElementsAsWritten(v, items).value| == |items|
    ensures forall i | 0 <= i < |items| :: CaptureElementsAsWritten(v, items).value[i] == CaptureElement(v, i, items[i])
    decreases v, 3, |items|
  {
    if items != [] {
      var n := |items| - 1;
      var init := items[..n];
      ElementsAgree(v, init);
      CaptureIndexAgrees(v, n);
      var prev := CaptureElementsAsWritten(v, init).value;
      var x := CaptureElementAsWritten(v, n, items[n]).value;
      assert CaptureElementsAsWritten(v, items).value == prev + [x];
      assert x == CaptureElement(v, n, items[n]);
      assert forall i | 0 <= i < n :: init[i] == items[i];
    }
  }

  lemma {:induction false} CaptureIndexAgrees(v: Value, i: nat)
    ensures CaptureIndexAsWritten(v, i).Some? ==> CaptureIndex(v, i) == CaptureIndexAsWritten(v, i)
    decreases v, 1
  {
    match v
    case Arr(items) => if i < |items| && items[i] != Null { OwnCaptureAgrees(items[i]); }
    case _ => CaptureMemberAgrees(v, NatToString(i));
  }

  lemma {:induction false} CaptureMemberAgrees(v: Value, k: string)
    ensures CaptureMemberAsWritten(v, k).Some? ==> CaptureMember(v, k) == CaptureMemberAsWritten(v, k)
    decreases v, 0
  {
    match v
    case Obj(ps) =>
      var i := IndexOf(ps, k);
      if i < |ps| && ps[i].1 != Null { OwnCaptureAgrees(ps[i].1); }
    case Err(own, inh, _) =>
      var i := IndexOf(own, k);
      var j := IndexOf(inh, k);
      if i < |own| { if own[i].1 != Null { OwnCaptureAgrees(own[i].1); } }
      else if j < |inh| && inh[j].1 != Null { OwnCaptureAgrees(inh[j].1); }
    case _ =>
  }

  /** An error whose `toJSON` reports `code: {}` while its own `code` is `null`. */
  const NullCode: Value := Err([("code", Null)], [], Some(Obj([("code", Obj([]))])))

  /** An error without `toJSON` holding `NullCode` as its own property `detail`. */
  const Wrapping: Value := Err([("detail", NullCode)], [], None)

  /** `NullCode` serializes, with its own names, to its `toJSON` result `{ code: {} }`. */
  lemma NullCodeSerialized()
    ensures OwnNames(NullCode) == ["code"]
    ensures Serialize(NullCode, ["code"]) == Obj([("code", Obj([]))])
  {
    var inner := Obj([("code", Obj([]))]);
    assert SerializeBody(inner, ["code"]) == Obj(Pick(inner, ["code"], ["code"]));
    assert ["code"][..0] == [];
    assert Serialize(Obj([]), ["code"]) == Obj([]);
    assert Pick(inner, ["code"], ["code"]) == Put([], "code", Obj([]));
  }

  /** `Wrapping` serializes, with its own names, to `{ detail: {} }`: the list filters `code` out of `detail`. */
  lemma WrappingSerialized()
    ensures OwnNames(Wrapping) == ["detail"]
    ensures Serialize(Wrapping, ["detail"]) == Obj([("detail", Obj([]))])
  {
    var inner := Obj([("code", Obj([]))]);
    assert ["detail"][..0] == [];
    assert Serialize(NullCode, ["detail"]) == Obj([]) by {
      assert SerializeBody(inner, ["detail"]) == Obj(Pick(inner, ["detail"], ["detail"]));
      assert IndexOf(inner.props, "detail") == 1;
      assert Pick(inner, ["detail"], ["detail"]) == [];
    }
    assert SerializeBody(Wrapping, ["detail"]) == Obj(Pick(Wrapping, ["detail"], ["detail"]));
    assert IndexOf(Wrapping.own, "detail") == 0;
    assert Pick(Wrapping, ["detail"], ["detail"]) == Put([], "detail", Obj([]));
  }

  /** The source's capture of `NullCode` throws on `NullCode.code`; the model's keeps `{ code: {} }`. */
  lemma NullCodeCapture()
    ensures OwnCaptureAsWritten(NullCode) == None
    ensures OwnCapture(NullCode) == Obj([("code", Obj([]))])
  {
    NullCodeSerialized();
    var ps := [("code", Obj([]))];
    assert CaptureMemberAsWritten(NullCode, "code") == None;
    assert CaptureEntryAsWritten(NullCode, ps[0]) == None;
    assert ps[..0] == [];
    assert CaptureMember(NullCode, "code") == None;
    assert CaptureEntry(NullCode, ps[0]) == ps[0];
    assert seq(1, i requires 0 <= i < 1 => CaptureEntry(NullCode, ps[i])) == ps;
  }

  /**
   * The source's capture throws on `Wrapping`: the copy of `detail` is an
   * object, so the capture recurses into `detail`, whose own capture throws.
   * The model's capture exposes `detail` as `{ code: {} }`.
   */
  lemma CaptureThrows()
    ensures OwnCaptureAsWritten(Wrapping) == None
    ensures OwnCapture(Wrapping) == Obj([("detail", Obj([("code", Obj([]))]))])
  {
    WrappingSerialized();
    NullCodeCapture();
    var ps := [("detail", Obj([]))];
    assert CaptureMemberAsWritten(Wrapping, "detail") == None;
    assert CaptureEntryAsWritten(Wrapping, ps[0]) == None;
    assert ps[..0] == [];
    assert CaptureMember(Wrapping, "detail") == Some(Obj([("code", Obj([]))]));
    assert seq(1, i requires 0 <= i < 1 => CaptureEntry(Wrapping, ps[i])) == [("detail", Obj([("code", Obj([]))]))];
  }
}
