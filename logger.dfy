/**
 * The logger (packages/woodwork-logger/lib/woodwork-logger.js): a registry
 * of named loggers, each buffering the events logged on it and handing the
 * buffer to its `request` option when it is flushed.
 */
module Logger {
  import opened Wrappers
  import opened PropList
  import opened Js
  import opened Merge
  import ErrorInterceptor

  /** The levels with a method of their own (`LEVELS`). */
  const Levels: seq<string> := ["debug", "info", "warn", "error"]

  /** The levels that flush at once (`AUTO_FLUSH_LEVEL`): `error` among them, `info` not. */
  type FlushLevels = levels: seq<string> | "error" in levels && "info" !in levels witness ["error"]

  /**
   * The `request` option, a function the logger calls with the buffered
   * events: here a recorder of every batch it was handed, in order.  What
   * the function does with a batch (an HTTP post in the tests) is not modelled.
   */
  class Sink {
    var batches: seq<seq<Value>>

    constructor ()
      ensures batches == []
    {
      batches := [];
    }

    method Request(events: seq<Value>)
      modifies this
      ensures batches == old(batches) + [events]
    {
      batches := batches + [events];
    }
  }

  /** The value of an option: plain data, the `request` function, or the `interceptors` list. */
  datatype Opt = Data(v: Value) | Request(sink: Sink) | Interceptors(fns: seq<Value -> Value>)

  type Options = Entries<Opt>

  /** `opts.interceptors || []` */
  function InterceptorsOf(opts: Options): seq<Value -> Value> {
    var o: Option<Opt> := Get(opts, "interceptors");
    match o
    case Some(Interceptors(fns)) => fns
    case _ => []
  }

  /** The sink `opts.request` names, if it names one. */
  function RequestOf(opts: Options): Option<Sink> {
    var o: Option<Opt> := Get(opts, "request");
    match o
    case Some(Request(s)) => Some(s)
    case _ => None
  }

  /** `opts.clientId`, `null` standing for `undefined`. */
  function ClientIdOf(opts: Options): Value {
    var o: Option<Opt> := Get(opts, "clientId");
    match o
    case Some(Data(v)) => v
    case _ => Null
  }

  /** `interceptors.reduce((seq, fn) => fn(seq), seed)`: the interceptors applied in order. */
  function Pipeline(fns: seq<Value -> Value>, seed: Value): Value {
    if fns == [] then seed else fns[|fns| - 1](Pipeline(fns[..|fns| - 1], seed))
  }

  /** Appending interceptors runs them after the earlier ones. */
  lemma {:induction false} PipelineAppend(fns: seq<Value -> Value>, more: seq<Value -> Value>, seed: Value)
    ensures Pipeline(fns + more, seed) == Pipeline(more, Pipeline(fns, seed))
    decreases |more|
  {
    if more == [] {
      assert fns + more == fns;
    } else {
      var init := more[..|more| - 1];
      assert (fns + more)[..|fns + more| - 1] == fns + init;
      PipelineAppend(fns, init, seed);
    }
  }

  /** An interceptor that passes every event at a level other than `error` through untouched. */
  ghost predicate KeepsNonErrors(f: Value -> Value) {
    forall event :: Member(event, "level") != Some(Str("error")) ==> f(event) == event
  }

  /** A chain of such interceptors leaves such an event as it is. */
  lemma {:induction false} PipelineKeepsNonErrors(fns: seq<Value -> Value>, seed: Value)
    requires forall i | 0 <= i < |fns| :: KeepsNonErrors(fns[i])
    requires Member(seed, "level") != Some(Str("error"))
    ensures Pipeline(fns, seed) == seed
    decreases |fns|
  {
    if fns != [] {
      PipelineKeepsNonErrors(fns[..|fns| - 1], seed);
      assert KeepsNonErrors(fns[|fns| - 1]);
    }
  }

  /** Error interceptors configured in any way, chained in any number. */
  function ErrorInterceptors(opts: seq<ErrorInterceptor.Overrides>): (fns: seq<Value -> Value>)
    ensures |fns| == |opts|
    ensures forall i | 0 <= i < |fns| :: KeepsNonErrors(fns[i])
  {
    seq(|opts|, i requires 0 <= i < |opts| => ErrorInterceptor.Interceptor(opts[i]))
  }

  /** At a level other than `error` a chain of error interceptors hands `log` its seed unchanged. */
  lemma ErrorChainKeepsSeed(opts: seq<ErrorInterceptor.Overrides>, level: string, event: Value, name: string, clientId: Value, data: Value)
    requires level != "error"
    ensures Pipeline(ErrorInterceptors(opts), Seed(level, event, name, clientId, data)) == Seed(level, event, name, clientId, data)
  {
    PipelineKeepsNonErrors(ErrorInterceptors(opts), Seed(level, event, name, clientId, data));
  }

  /** The record `log` passes through the interceptors. */
  function Seed(level: string, event: Value, name: string, clientId: Value, data: Value): Value {
    Obj([("level", Str(level)), ("event", event), ("service", Str(name)), ("clientId", clientId), ("data", data)])
  }

  /** The seed holds the level, the event and the logger's name. */
  lemma SeedFields(level: string, event: Value, name: string, clientId: Value, data: Value)
    ensures Member(Seed(level, event, name, clientId, data), "level") == Some(Str(level))
    ensures Member(Seed(level, event, name, clientId, data), "event") == Some(event)
    ensures Member(Seed(level, event, name, clientId, data), "service") == Some(Str(name))
  {
    var ps := Seed(level, event, name, clientId, data).props;
    IndexOfIs(ps, "level", 0);
    IndexOfIs(ps, "event", 1);
    IndexOfIs(ps, "service", 2);
  }

  /** The seed holds the client id and the data. */
  lemma SeedData(level: string, event: Value, name: string, clientId: Value, data: Value)
    ensures Member(Seed(level, event, name, clientId, data), "clientId") == Some(clientId)
    ensures Member(Seed(level, event, name, clientId, data), "data") == Some(data)
  {
    var ps := Seed(level, event, name, clientId, data).props;
    IndexOfIs(ps, "clientId", 3);
    IndexOfIs(ps, "data", 4);
  }

  /** The seed's keys come in the order `log` writes them. */
  lemma SeedOrder(level: string, event: Value, name: string, clientId: Value, data: Value)
    ensures KeyList(Seed(level, event, name, clientId, data).props) == ["level", "event", "service", "clientId", "data"]
  {
    var ks := KeyList(Seed(level, event, name, clientId, data).props);
    assert ks[0] == "level" && ks[1] == "event" && ks[2] == "service" && ks[3] == "clientId" && ks[4] == "data";
  }

  /** `data || {}`: an absent or falsy `data` becomes an empty object. */
  function DataOrEmpty(data: Option<Value>): (r: Value)
    ensures data.Some? && Truthy(data.value) ==> r == data.value
    ensures !(data.Some? && Truthy(data.value)) ==> r == Obj([])
  {
    match data
    case Some(d) => if Truthy(d) then d else Obj([])
    case None => Obj([])
  }

  /** One logger (`WoodworkLogger`). */
  class Logger {
    const name: string
    const opts: Options
    const interceptors: seq<Value -> Value>
    const autoFlush: FlushLevels
    var events: seq<Value>

    /** The sinks `flush` may write to. */
    function Sinks(): set<Sink> {
      match RequestOf(opts)
      case Some(s) => {s}
      case None => {}
    }

    /** The payload `log(level, event, data)` appends. */
    function Payload(level: string, event: Value, data: Value): Value {
      Pipeline(interceptors, Seed(level, event, name, ClientIdOf(opts), data))
    }

    /** `sink` was handed `batch` once more, or there is no sink. */
    twostate predicate Handed(batch: seq<Value>)
      reads Sinks()
    {
      forall s | s in Sinks() :: s.batches == old(s.batches) + [batch]
    }

    /** Nothing was handed to the sink. */
    twostate predicate NotHanded()
      reads Sinks()
    {
      forall s | s in Sinks() :: s.batches == old(s.batches)
    }

    /**
     * `log(level, event, data)` happened: the payload was appended; at an
     * auto-flush level the buffer, now ending with it, was handed to the
     * sink and emptied.
     */
    twostate predicate Logged(level: string, event: Value, data: Value)
      reads this, Sinks()
    {
      var payload := Payload(level, event, data);
      if level in autoFlush then events == [] && Handed(old(events) + [payload])
      else events == old(events) + [payload] && NotHanded()
    }

    constructor (name: string, opts: Options, autoFlush: FlushLevels)
      ensures this.name == name && this.opts == opts && this.autoFlush == autoFlush
      ensures interceptors == InterceptorsOf(opts)
      ensures events == []
    {
      this.name := name;
      this.opts := opts;
      this.autoFlush := autoFlush;
      this.interceptors := InterceptorsOf(opts);
      this.events := [];
    }

    /** `flush()`: hand the buffer to `request`, if there is one, and empty it. */
    method Flush()
      modifies this, Sinks()
      ensures events == []
      ensures Handed(old(events))
    {
      var request := RequestOf(opts);
      if request.Some? {
        request.value.Request(events);
      }
      events := [];
    }

    /** `log(level, event, data)` */
    method Log(level: string, event: Value, data: Value)
      modifies this, Sinks()
      ensures Logged(level, event, data)
    {
      var payload := Pipeline(interceptors, Seed(level, event, name, ClientIdOf(opts), data));
      events := events + [payload];
      if level in autoFlush {
        Flush();
      }
    }

    /** `proto[level]`, installed for each level of `Levels`: `log(level, event, data || {})`. */
    method LogLevel(level: string, event: Value, data: Option<Value>)
      requires level in Levels
      modifies this, Sinks()
      ensures Logged(level, event, DataOrEmpty(data))
    {
      Log(level, event, DataOrEmpty(data));
    }

    method Debug(event: Value, data: Option<Value>)
      modifies this, Sinks()
      ensures Logged("debug", event, DataOrEmpty(data))
    {
      LogLevel("debug", event, data);
    }

    /** `info` only buffers its payload. */
    method Info(event: Value, data: Option<Value>)
      modifies this, Sinks()
      ensures events == old(events) + [Payload("info", event, DataOrEmpty(data))]
      ensures NotHanded()
    {
      LogLevel("info", event, data);
    }

    method Warn(event: Value, data: Option<Value>)
      modifies this, Sinks()
      ensures Logged("warn", event, DataOrEmpty(data))
    {
      LogLevel("warn", event, data);
    }

    /** `error` hands the buffer, ending with its payload, to the sink at once and empties it. */
    method Error(event: Value, data: Option<Value>)
      modifies this, Sinks()
      ensures events == []
      ensures Handed(old(events) + [Payload("error", event, DataOrEmpty(data))])
    {
      LogLevel("error", event, data);
    }
  }

  /** The options a new logger gets: `merge({ clientId: getClientId() }, opts)`. */
  function LoggerOptions(clientId: string, opts: Options): Options {
    Merged([("clientId", Data(Str(clientId)))], opts)
  }

  /** A logger created without options has exactly `{ clientId }`. */
  lemma OptionsWithoutOpts(clientId: string)
    ensures LoggerOptions(clientId, []) == [("clientId", Data(Str(clientId)))]
  {
    MergeEmptyRight([("clientId", Data(Str(clientId)))]);
  }

  /** The caller's options survive the merge, a `clientId` of the caller's included. */
  lemma CallerOptionsWin(clientId: string, opts: Options, k: string)
    ensures Keys(LoggerOptions(clientId, opts)) == Keys(opts) + {"clientId"}
    ensures k in Keys(opts) ==> Get(LoggerOptions(clientId, opts), k) == Get(opts, k)
    ensures k != "clientId" ==> Get(LoggerOptions(clientId, opts), k) == Get(opts, k)
  {
    var base := [("clientId", Data(Str(clientId)))];
    MergedGet(base, opts, k);
    if k != "clientId" {
      assert k !in Keys(base);
    }
  }

  /** Without a `clientId` of the caller's, the logger reports the generated one. */
  lemma GeneratedClientId(clientId: string, opts: Options)
    requires "clientId" !in Keys(opts)
    ensures ClientIdOf(LoggerOptions(clientId, opts)) == Str(clientId)
  {
    var base := [("clientId", Data(Str(clientId)))];
    IndexOfIs(base, "clientId", 0);
    MergedGet(base, opts, "clientId");
  }

  /** The `interceptors` and `request` a logger uses are the caller's. */
  lemma CallerHooksKept(clientId: string, opts: Options)
    ensures InterceptorsOf(LoggerOptions(clientId, opts)) == InterceptorsOf(opts)
    ensures RequestOf(LoggerOptions(clientId, opts)) == RequestOf(opts)
  {
    CallerOptionsWin(clientId, opts, "interceptors");
    CallerOptionsWin(clientId, opts, "request");
  }

  /** `instances[name]` for a registry with own entries only. */
  function Lookup(instances: map<string, Logger>, name: string): (r: Result<Logger, string>)
    ensures r.Success? <==> name in instances
    ensures r.Success? ==> r.value == instances[name]
    ensures r.Failure? ==> r.error == "No instance found: " + name
  {
    if name in instances then Success(instances[name]) else Failure("No instance found: " + name)
  }

  /**
   * The module-level registry with `create` and `get`.  `getClientId()` and
   * `AUTO_FLUSH_LEVEL` are fixed when it is made.
   */
  class Registry {
    var instances: map<string, Logger>
    const clientId: string
    const autoFlush: FlushLevels

    /** Every registered logger carries the name it is registered under. */
    predicate Valid()
      reads this
    {
      forall n | n in instances :: instances[n].name == n
    }

    constructor (clientId: string, autoFlush: FlushLevels)
      ensures Valid()
      ensures instances == map[] && this.clientId == clientId && this.autoFlush == autoFlush
    {
      instances := map[];
      this.clientId := clientId;
      this.autoFlush := autoFlush;
    }

    /** `create(name, opts)`: the registered logger, or a new one registered under `name`. */
    method Create(name: string, opts: Options) returns (logger: Logger)
      requires Valid()
      modifies this
      ensures Valid()
      ensures logger.name == name
      ensures name in old(instances) ==> logger == old(instances[name]) && instances == old(instances)
      ensures name !in old(instances) ==>
        && fresh(logger)
        && instances == old(instances)[name := logger]
        && logger.opts == LoggerOptions(clientId, opts)
        && logger.interceptors == InterceptorsOf(LoggerOptions(clientId, opts))
        && logger.autoFlush == autoFlush
        && logger.events == []
    {
      if name in instances {
        return instances[name];
      }
      var options := Merge.Merge([("clientId", Data(Str(clientId)))], opts);
      logger := new Logger(name, options, autoFlush);
      instances := instances[name := logger];
    }

    /** `get(name)`: the registered logger, or the error `get` throws. */
    method Get(name: string) returns (r: Result<Logger, string>)
      requires Valid()
      ensures r == Lookup(instances, name)
      ensures r.Success? ==> r.value.name == name
    {
      if name !in instances {
        return Failure("No instance found: " + name);
      }
      return Success(instances[name]);
    }
  }

  // ---------------------------------------------------------------------------
  // `instances` as written: a plain object literal, which inherits the
  // members of `Object.prototype`
  // ---------------------------------------------------------------------------

  /** The names every plain object inherits from `Object.prototype` (all truthy). */
  const PrototypeMembers: set<string> := {
    "constructor", "hasOwnProperty", "isPrototypeOf", "propertyIsEnumerable",
    "toLocaleString", "toString", "valueOf", "__defineGetter__", "__defineSetter__",
    "__lookupGetter__", "__lookupSetter__", "__proto__"
  }

  /** What `instances[name]` reads: a registered logger, an inherited member, or `undefined`. */
  datatype Slot = Own(logger: Logger) | Inherited(member: string) | Absent

  function InstancesAt(instances: map<string, Logger>, name: string): (r: Slot)
    ensures r.Own? <==> name in instances
    ensures r.Inherited? <==> name !in instances && name in PrototypeMembers
    ensures r.Own? ==> r.logger == instances[name]
  {
    if name in instances then Own(instances[name])
    else if name in PrototypeMembers then Inherited(name)
    else Absent
  }

  /** `get(name)` as written: throws only when `instances[name]` is falsy. */
  function GetAsWritten(instances: map<string, Logger>, name: string): (r: Result<Slot, string>)
    ensures r.Failure? <==> name !in instances && name !in PrototypeMembers
    ensures r.Success? ==> r.value == InstancesAt(instances, name)
  {
    var slot := InstancesAt(instances, name);
    if slot.Absent? then Failure("No instance found: " + name) else Success(slot)
  }

  /**
   * `create(name, opts)` as written, `made` being the logger it would
   * construct: the registry afterwards and what the call returns.  It
   * registers `made` only when `instances[name]` is falsy.
   */
  function CreateAsWritten(instances: map<string, Logger>, name: string, made: Logger): (r: (map<string, Logger>, Slot))
    ensures name in instances || name in PrototypeMembers ==> r.0 == instances
    ensures name !in instances && name !in PrototypeMembers ==>
      r.0.Keys == instances.Keys + {name} && forall n | n in instances :: r.0[n] == instances[n]
    ensures r.1.Inherited? <==> name !in instances && name in PrototypeMembers
    ensures r.1.Own? ==> r.0[name] == r.1.logger
    ensures name in instances ==> r.1 == Own(instances[name])
    ensures name !in instances && name !in PrototypeMembers ==> r.1 == Own(made)
  {
    var slot := InstancesAt(instances, name);
    if slot.Absent? then (instances[name := made], Own(made)) else (instances, slot)
  }

  /** Away from the inherited names `create` as written registers and returns what `Registry.Create` does. */
  lemma CreateAsWrittenAgrees(instances: map<string, Logger>, name: string, made: Logger)
    requires name !in PrototypeMembers
    ensures name in instances ==> CreateAsWritten(instances, name, made) == (instances, Own(instances[name]))
    ensures name !in instances ==> CreateAsWritten(instances, name, made) == (instances[name := made], Own(made))
  {
  }

  /**
   * On an empty registry, `get('toString')` returns the inherited method
   * instead of throwing, and `create('toString')` returns it instead of a logger.
   */
  lemma GetFindsInherited(made: Logger)
    ensures GetAsWritten(map[], "toString") == Success(Inherited("toString"))
    ensures Lookup(map[], "toString") == Failure("No instance found: toString")
    ensures CreateAsWritten(map[], "toString", made) == (map[], Inherited("toString"))
  {
    assert "No instance found: " + "toString" == "No instance found: toString";
  }

  /** Away from the inherited names the lookup as written is the registry's own. */
  lemma GetAsWrittenAgrees(instances: map<string, Logger>, name: string)
    requires name !in PrototypeMembers
    ensures GetAsWritten(instances, name).Success? <==> Lookup(instances, name).Success?
    ensures Lookup(instances, name).Success? ==> GetAsWritten(instances, name) == Success(Own(Lookup(instances, name).value))
    ensures Lookup(instances, name).Failure? ==> GetAsWritten(instances, name) == Failure(Lookup(instances, name).error)
  {
  }
}
