# woodwork: the logger, its merge and the error interceptor, in Dafny

This project models three parts of the woodwork logging packages and proves properties of the model:

- **The error interceptor** (`woodwork-interceptor-error`). It is a curried transform `opts => event => event`.
  - Events at a level other than `error` pass through untouched.
  - At the `error` level, an Error in the event's `data` is replaced by a plain, serializable object. So is every Error at the first level of `data`.
  - Exposing an error gives precedence to its `toJSON()`.
  - Without `toJSON()`, exposing merges two captures, and the whitelist capture wins on a shared key:
    - the recursive own-property capture, when `getOwnProperties` is set;
    - `JSON.parse(JSON.stringify(error, whitelist))`.
- **The logger** (`woodwork-logger`).
  - A registry maps names to loggers. `create` returns the registered logger, or registers a new one. `get` fails for an unknown name.
  - Each logger buffers its events. `log` folds the interceptors over a seed record and appends the result. At an auto-flush level it then flushes.
  - `flush` hands the buffer to the `request` option and empties the buffer.
- **`merge`**: a shallow, right-biased union that the logger uses to build its options.

The modules follow the program:

- `Wrappers`: `Option` and `Result`.
- `PropList`: a JavaScript object as an ordered list of entries.
  - Reading a key takes the first entry with that key.
  - Assigning a key overwrites that entry, or appends a new one.
- `Js`: JavaScript values as finite trees. It covers:
  - an `Err` variant for `instanceof Error`, with own properties, inherited properties and an optional `toJSON` result;
  - property reads through the prototype chain;
  - truthiness;
  - `JSON.parse(JSON.stringify(v, names))`.
- `ErrorInterceptor`, `Merge` and `Logger`: the three source files.

Each source file takes its own form in the model:

- **Pure parts are functions.** `expose`, the transform and the capture are functions. The lemmas are stated about these functions.
- **Loops are methods.** Each loop the model covers becomes a method with a loop, proved equal to its function. These are:
  - the `forEach` loops of `getOwnPropertyNames` and of the transform;
  - the two `for…in` loops of `merge`.
- **The logger is classes.** A logger is a class with a mutable `events` field. The registry is a class with a mutable `instances` map. The `request` option is a `Sink` object: it records every batch it is handed.

## Model

| member | source | states |
|---|---|---|
| ErrorInterceptor.Override | packages/woodwork-interceptor-error/lib/woodwork-interceptor-error.js:28 | `Object.assign(base, opts)` on the two options read: an option `opts` sets replaces `base`'s, whatever `base` is, and one it leaves unset keeps `base`'s. |
| ErrorInterceptor.OwnCapture | packages/woodwork-interceptor-error/lib/woodwork-interceptor-error.js:3-13 | The own-property capture `getOwnPropertyNames(obj)`: the copy serialized with the value's own names, each object-valued entry then replaced by the capture of the original property. Its properties are in `OwnCaptureOfError`, `OwnCaptureKeepsData`, `OwnCaptureNoError` and `CaptureMemberIs`. |
| ErrorInterceptor.WhitelistCapture | packages/woodwork-interceptor-error/lib/woodwork-interceptor-error.js:23 | `JSON.parse(JSON.stringify(error, opts.whitelist))`. Its keys and values are in `Js.PickKeys` and `Js.PickGet`. |
| ErrorInterceptor.Expose | packages/woodwork-interceptor-error/lib/woodwork-interceptor-error.js:15-25 | `expose(error, opts)`: the `toJSON` result when there is one, otherwise `Object.assign({}, own capture or nothing, whitelist capture)`. Its properties are in `ExposeToJSON`, `ExposeGet`, `ExposeKeys` and `ExposeContents`. |
| ErrorInterceptor.ExposeFirstLevel | packages/woodwork-interceptor-error/lib/woodwork-interceptor-error.js:39-45 | The `Object.keys(event.data).forEach` pass: each first-level Error of `data` is exposed. Its properties are in `ExposeFirstLevelObject`, `ExposeFirstLevelFixed` and `ExposeFirstLevelTwice`. |
| ErrorInterceptor.Transform | packages/woodwork-interceptor-error/lib/woodwork-interceptor-error.js:30-47 | An event that is not at level `error`, or has no object `data`, is returned unchanged. No member other than `data` changes, and `data` stays present exactly when it was. An Error `data` becomes `expose(data)`. Any other object `data` gets its first level exposed. |
| ErrorInterceptor.Interceptor | packages/woodwork-interceptor-error/lib/woodwork-interceptor-error.js:27-32 | For any options, the interceptor returns every non-`error` event unchanged and changes no member but `data`. |
| ErrorInterceptor.TransformEvent | packages/woodwork-interceptor-error/lib/woodwork-interceptor-error.js:27-48 | The in-place version, with the `Object.keys(event.data).forEach` loop, computes exactly `Transform`. |
| ErrorInterceptor.ErrorEventExposes | packages/woodwork-interceptor-error/lib/woodwork-interceptor-error.js:39-45 | For an `error` event whose data is `{ error }`, the result's data is `{ error: expose(error) }`. |
| ErrorInterceptor.ExposeFirstLevelObject | packages/woodwork-interceptor-error/lib/woodwork-interceptor-error.js:39-45 | For object `data`, the key list is unchanged. A key holding an Error now holds its exposure. Every other key keeps its value, and nested errors are not touched. |
| ErrorInterceptor.ExposeFirstLevelFixed | packages/woodwork-interceptor-error/lib/woodwork-interceptor-error.js:40-44 | First-level data with no Error in it is left exactly as it is. |
| ErrorInterceptor.TransformIdempotent | packages/woodwork-interceptor-error/lib/woodwork-interceptor-error.js:34-45 | Applying the transform twice equals applying it once. The requirement is that every `toJSON` result in `data` is free of errors. |
| ErrorInterceptor.ExposedFixed | packages/woodwork-interceptor-error/lib/woodwork-interceptor-error.js:15-25 | An exposed error whose `toJSON` result, if any, holds no error has no error left at its first level. |
| ErrorInterceptor.ExposeFirstLevelTwice | packages/woodwork-interceptor-error/lib/woodwork-interceptor-error.js:39-45 | Exposing the first level of already exposed data changes nothing. |
| ErrorInterceptor.ExposeNoError | packages/woodwork-interceptor-error/lib/woodwork-interceptor-error.js:15-25 | `expose` leaves no Error anywhere in its result, unless `toJSON` returns one. |
| ErrorInterceptor.ExposeToJSON | packages/woodwork-interceptor-error/lib/woodwork-interceptor-error.js:16-18 | An error with `toJSON` is exposed as exactly its result, whatever the options. |
| ErrorInterceptor.ExposeGet | packages/woodwork-interceptor-error/lib/woodwork-interceptor-error.js:20-24 | Without `toJSON`, a whitelisted key the error has reads its serialized value (the whitelist capture wins). Otherwise a key reads the own-property capture when `getOwnProperties` is set, and is absent when it is not. |
| ErrorInterceptor.ExposeKeys | packages/woodwork-interceptor-error/lib/woodwork-interceptor-error.js:20-24 | Without `toJSON`, the exposed keys are the whitelisted names the error has. The own names are added when `getOwnProperties` is set. |
| ErrorInterceptor.ExposeContents | packages/woodwork-interceptor-error/lib/woodwork-interceptor-error.js:20-24 | The key set, the whitelisted values, the non-whitelisted own primitives kept as they are, and own objects replaced by their own capture. |
| ErrorInterceptor.ExposeWithoutOwnProperties | packages/woodwork-interceptor-error/lib/woodwork-interceptor-error.js:22-23 | With `getOwnProperties` false, the exposure is the whitelist capture alone, and every key it has is a whitelisted name the error has. |
| ErrorInterceptor.OwnCaptureOfError | packages/woodwork-interceptor-error/lib/woodwork-interceptor-error.js:3-13 | The own-property capture of an error has exactly its own keys, distinct. Primitive values are kept as they are. Object values without `toJSON` are replaced by their own recursive capture. |
| ErrorInterceptor.OwnCaptureKeepsData | packages/woodwork-interceptor-error/lib/woodwork-interceptor-error.js:3-13 | On plain JSON data, the capture is the identity, so nested objects keep their shape. |
| ErrorInterceptor.OwnCaptureNoError | packages/woodwork-interceptor-error/lib/woodwork-interceptor-error.js:3-13 | The capture leaves no Error anywhere in its result, unless a `toJSON` returns one. |
| ErrorInterceptor.CaptureMemberIs | packages/woodwork-interceptor-error/lib/woodwork-interceptor-error.js:7-8 | An object-valued key is replaced by the capture of the original property. A `null` or absent property keeps the serialized value. |
| ErrorInterceptor.CaptureOwnProperties | packages/woodwork-interceptor-error/lib/woodwork-interceptor-error.js:3-13 | The `forEach` loop over the copy's own names computes exactly the capture `OwnCapture`. |
| ErrorInterceptor.CaptureProperty | packages/woodwork-interceptor-error/lib/woodwork-interceptor-error.js:8 | The recursive call on `obj[key]` computes `CaptureMember`. |
| ErrorInterceptor.CaptureItem | packages/woodwork-interceptor-error/lib/woodwork-interceptor-error.js:8 | The recursive call on an array element computes `CaptureIndex`. |
| ErrorInterceptor.OverrideDefaults | packages/woodwork-interceptor-error/lib/woodwork-interceptor-error.js:28 | An option the caller sets replaces the default. One it leaves out keeps the default (`getOwnProperties` true, whitelist `message`, `name`, `stack`). |
| ErrorInterceptor.CustomErrorKeys | packages/woodwork-interceptor-error/tests/woodwork-interceptor-error.js:84-116 | With the defaults, the tests' `CustomError` is exposed with exactly `stack`, `message`, `name`, `customData` and `nestedData`. |
| ErrorInterceptor.CustomErrorName | packages/woodwork-interceptor-error/tests/woodwork-interceptor-error.js:84-116 | Its `name` is its own `CustomError`, not the prototype's `Error`. |
| ErrorInterceptor.CustomErrorData | packages/woodwork-interceptor-error/tests/woodwork-interceptor-error.js:84-116 | `customData` keeps its value. |
| ErrorInterceptor.CustomErrorNested | packages/woodwork-interceptor-error/tests/woodwork-interceptor-error.js:84-116 | `nestedData` keeps its shape `{ isNested: true }`. |
| ErrorInterceptor.ExposeOwnPlain | packages/woodwork-interceptor-error/lib/woodwork-interceptor-error.js:20-24 | A non-whitelisted own property that holds plain data is exposed as it is. |
| ErrorInterceptor.BoomNameOnly | packages/woodwork-interceptor-error/tests/woodwork-interceptor-error.js:183-201 | With `getOwnProperties` false and whitelist `['name']`, a plain `new Error('boom')` is exposed as `{ name }` only. The test passes only `{ whitelist: ['name'] }`; it sees `getOwnProperties` false through the options leaked from the test at tests:154-181 (Findings row 1). Under the corrected interceptor the test's expected `{ name: 'Error' }` does not hold: `BoomOwnAndName` gives `stack` and `message` as well. |
| ErrorInterceptor.BoomOwnAndName | packages/woodwork-interceptor-error/lib/woodwork-interceptor-error.js:20-24 | With `getOwnProperties` set and whitelist `['name']`, it is exposed with `stack`, `message` and `name`. |
| ErrorInterceptor.InterceptAsWritten | packages/woodwork-interceptor-error/lib/woodwork-interceptor-error.js:28 | As written, a call writes `opts` into the shared options and transforms with the result: an option `opts` sets overwrites the shared value, and one it leaves unset keeps it. |
| ErrorInterceptor.DefaultsLeak | packages/woodwork-interceptor-error/lib/woodwork-interceptor-error.js:28 | As written, after an interceptor made with `{ getOwnProperties: false }` has run, one made with `{ whitelist: ['name'] }` exposes with `getOwnProperties` false. Made on its own, it exposes with `getOwnProperties` set. |
| ErrorInterceptor.FirstInterceptAgrees | packages/woodwork-interceptor-error/lib/woodwork-interceptor-error.js:27-28 | While the shared options still hold the defaults, a call as written transforms exactly as the corrected interceptor does. |
| ErrorInterceptor.InterceptorUsesOwnOptions | packages/woodwork-interceptor-error/lib/woodwork-interceptor-error.js:27-28 | For options that set both `getOwnProperties` and `whitelist`, a call as written transforms exactly as the corrected interceptor does, whatever earlier calls left in the shared options. |
| ErrorInterceptor.OwnCaptureAsWritten | packages/woodwork-interceptor-error/lib/woodwork-interceptor-error.js:3-13 | The capture as written: `None` where `Object.getOwnPropertyNames` is reached with `null` or a missing property and throws. Its relation to the corrected capture is in `OwnCaptureAgrees` and `CaptureThrows`. |
| ErrorInterceptor.OwnCaptureAgrees | packages/woodwork-interceptor-error/lib/woodwork-interceptor-error.js:3-13 | When the capture as written does not throw, it equals the corrected capture. |
| ErrorInterceptor.CaptureThrows | packages/woodwork-interceptor-error/lib/woodwork-interceptor-error.js:4-8 | An error whose property holds an error with a `null` own `code` and a `toJSON` giving `code: {}` makes the capture as written throw. The corrected capture returns `{ detail: { code: {} } }`. |
| Js.OwnNames | packages/woodwork-interceptor-error/lib/woodwork-interceptor-error.js:4-6 | `Object.getOwnPropertyNames(v)`: an object's keys in order, an error's own keys only (not its prototype's), an array's or a string's index names `"0"`, `"1"`, … followed by `length`, and nothing for other primitives. `PickOwnKeys` and `OwnCaptureOfError` rest on it. |
| Js.Member | packages/woodwork-interceptor-error/lib/woodwork-interceptor-error.js:30-41 | A property read `obj[k]`: the own entry of an object or error, else the error's inherited one. It yields nothing for primitives and arrays. |
| Js.Serialize | packages/woodwork-interceptor-error/lib/woodwork-interceptor-error.js:4 | `JSON.parse(JSON.stringify(v, names))`: a `toJSON` result replaces the value, and objects keep the listed names they have, recursively. Its properties are in `PickGet`, `PickKeys`, `PickOwnKeys` and `SerializeNoError`. |
| Js.Pick | packages/woodwork-interceptor-error/lib/woodwork-interceptor-error.js:23 | The entries `JSON.stringify` writes for an object with a property list: each listed name the value has, once, in list order, its value serialized. |
| Js.SetMember | packages/woodwork-interceptor-error/lib/woodwork-interceptor-error.js:35 | `event.data = x` makes `data` read `x` and changes no other member. |
| Js.SetMemberSame | packages/woodwork-interceptor-error/lib/woodwork-interceptor-error.js:42 | Assigning a member the value it already holds leaves the object equal to what it was. |
| Js.PickGet | packages/woodwork-interceptor-error/lib/woodwork-interceptor-error.js:23 | `JSON.stringify` with a property list keeps a listed key exactly when the value has it, with its serialized value, and keys stay distinct. |
| Js.PickKeys | packages/woodwork-interceptor-error/lib/woodwork-interceptor-error.js:23 | The serialized keys are the listed names the value has. |
| Js.PickOwnKeys | packages/woodwork-interceptor-error/lib/woodwork-interceptor-error.js:4 | Serializing an object with its own names as the list gives its entries in insertion order, each value serialized. |
| Js.SerializeNoError | packages/woodwork-interceptor-error/lib/woodwork-interceptor-error.js:4 | The JSON round trip leaves no Error, unless a `toJSON` returns one. |
| PropList.Get | packages/woodwork-logger/lib/merge.js:3-4 | `obj[k]` reads the first entry with key `k`, and is defined exactly when `k` is a key. |
| PropList.Put | packages/woodwork-logger/lib/merge.js:3-4 | `obj[k] = v` adds `k` to the keys, makes `k` read `v` and leaves every other key alone. A new key is appended (insertion order), and keys stay distinct. |
| PropList.PutKeyList | packages/woodwork-logger/lib/merge.js:3-4 | Assigning an existing key keeps the key order. A new key goes last. |
| PropList.Assign | packages/woodwork-interceptor-error/lib/woodwork-interceptor-error.js:20-24 | `Object.assign(target, source)` has the keys of both, keeps a target with distinct keys distinct, and holds no entry from elsewhere. |
| PropList.AssignGet | packages/woodwork-interceptor-error/lib/woodwork-interceptor-error.js:20-24 | After `Object.assign(target, source)`, a key of `source` reads `source`'s value, and any other key reads `target`'s. |
| PropList.AssignOntoEmpty | packages/woodwork-interceptor-error/lib/woodwork-interceptor-error.js:20-21 | Assigning onto `{}` copies an object with distinct keys. |
| Merge.CopyKeys | packages/woodwork-logger/lib/merge.js:3-4 | The first `n` iterations of a `for…in` loop assigning `source`'s keys onto `target`. Its properties are in `CopyKeysKeys`, `CopyKeysGet` and `CopyKeysOrder`. |
| Merge.Merged | packages/woodwork-logger/lib/merge.js:1-6 | `merge(obj1, obj2)`: both loops, in order, from an empty object. Its properties are in `MergedGet`, `MergedOrder`, `MergeEmptyRight` and `MergeEmptyLeft`. |
| Merge.Merge | packages/woodwork-logger/lib/merge.js:1-6 | The two `for…in` loops over a fresh object compute exactly `Merged`. The inputs are values, so they are not modified. |
| Merge.MergedGet | packages/woodwork-logger/lib/merge.js:2-4 | The keys of the result are the union of the keys of both. A key of `obj2` reads `obj2`'s value. A key only of `obj1` reads `obj1`'s value. Every key appears once. |
| Merge.MergedOrder | packages/woodwork-logger/lib/merge.js:3-4 | The result's keys come in insertion order, which is `for…in` order when no key is an array index: those of `obj1`, then those only `obj2` has. |
| Merge.CopyKeysKeys | packages/woodwork-logger/lib/merge.js:3 | After `n` iterations, the keys are those of the target plus the `n` visited keys. |
| Merge.CopyKeysGet | packages/woodwork-logger/lib/merge.js:3 | After `n` iterations, a visited key reads the source and any other key reads the target. |
| Merge.CopyKeysOrder | packages/woodwork-logger/lib/merge.js:4 | After `n` iterations, the key order is the target's, then each new source key where it is first met. |
| Merge.SameEntries | packages/woodwork-logger/lib/merge.js:2-5 | Two objects with distinct keys, the same key order and the same values are equal. |
| Merge.MergeEmptyRight | packages/woodwork-logger/lib/merge.js:2-5 | Merging with an empty second object yields a copy of the first. |
| Merge.CopyOntoEmpty | packages/woodwork-logger/lib/merge.js:2-3 | The first `n` iterations of the `for…in` copy of an object with distinct keys onto the fresh `{}` give exactly its first `n` entries. |
| Merge.MergeEmptyLeft | packages/woodwork-logger/lib/merge.js:2-5 | Merging onto an empty first object yields a copy of the second. |
| Logger.Sink.constructor | packages/woodwork-logger/lib/woodwork-logger.js:47-49 | The `request` sink starts with no batches recorded. |
| Logger.Sink.Request | packages/woodwork-logger/lib/woodwork-logger.js:47-49 | The `request` sink records each batch it is handed, in order. |
| Logger.Logger.constructor | packages/woodwork-logger/lib/woodwork-logger.js:11-16 | The constructor stores the name and options, takes `opts.interceptors` (or none) as the interceptors, and starts with an empty buffer. |
| Logger.Logger.Flush | packages/woodwork-logger/lib/woodwork-logger.js:42-52 | `flush` hands the current buffer, as one batch, to the `request` sink when one is configured. Either way the buffer is empty afterwards. |
| Logger.Logger.Log | packages/woodwork-logger/lib/woodwork-logger.js:54-70 | At a level not among the auto-flush levels, `log` appends exactly one payload and the earlier entries stay. The payload is the left fold of the interceptors over `{ level, event, service, clientId, data }`. At an auto-flush level, the sink is handed the old buffer followed by the payload, and the buffer is empty afterwards. |
| Logger.Logger.Payload | packages/woodwork-logger/lib/woodwork-logger.js:55-63 | The record `log` appends: the interceptors folded over the seed, with the logger's name and the options' `clientId`. |
| Logger.Logger.LogLevel | packages/woodwork-logger/lib/woodwork-logger.js:72-76 | The method installed for each of `LEVELS`: it logs at its level with `data`, or with `{}` when `data` is absent or falsy. |
| Logger.Logger.Debug | packages/woodwork-logger/lib/woodwork-logger.js:72-76 | `debug(event, data)` logs at `debug` with `data`, or with `{}` when `data` is absent or falsy. |
| Logger.Logger.Info | packages/woodwork-logger/lib/woodwork-logger.js:72-76 | `info` appends its payload, with `data` or `{}`, to the buffer and hands nothing to the sink (`info` is not an auto-flush level). |
| Logger.Logger.Warn | packages/woodwork-logger/lib/woodwork-logger.js:72-76 | The same at `warn`. |
| Logger.Logger.Error | packages/woodwork-logger/lib/woodwork-logger.js:67-76 | `error` hands the sink the old buffer followed by its payload, with `data` or `{}`, and leaves the buffer empty (`error` is an auto-flush level). |
| Logger.DataOrEmpty | packages/woodwork-logger/lib/woodwork-logger.js:74 | `data \|\| {}` is `data` when it is truthy, and `{}` otherwise. |
| Logger.InterceptorsOf | packages/woodwork-logger/lib/woodwork-logger.js:15 | `opts.interceptors \|\| []`. |
| Logger.RequestOf | packages/woodwork-logger/lib/woodwork-logger.js:47 | The sink `opts.request` names, if it names one. |
| Logger.ClientIdOf | packages/woodwork-logger/lib/woodwork-logger.js:61 | `opts.clientId`, with `null` standing for `undefined`. |
| Logger.Pipeline | packages/woodwork-logger/lib/woodwork-logger.js:55-57 | `interceptors.reduce((seq, fn) => fn(seq), seed)`: the interceptors applied left to right. Its properties are in `PipelineAppend` and `PipelineKeepsNonErrors`. |
| Logger.PipelineAppend | packages/woodwork-logger/lib/woodwork-logger.js:55-57 | The fold runs the interceptors in order. A longer list runs the extra interceptors on the result of the earlier ones. |
| Logger.PipelineKeepsNonErrors | packages/woodwork-logger/lib/woodwork-logger.js:55-63 | A chain of interceptors that each pass non-`error` events through passes such an event through. |
| Logger.ErrorInterceptors | packages/woodwork-interceptor-error/lib/woodwork-interceptor-error.js:27-32 | Error interceptors, however configured, each pass non-`error` events through. |
| Logger.ErrorChainKeepsSeed | packages/woodwork-logger/lib/woodwork-logger.js:55-63 | At a level other than `error`, a chain of error interceptors leaves the seed record exactly as `log` built it. |
| Logger.Seed | packages/woodwork-logger/lib/woodwork-logger.js:57-63 | The record `{ level, event, service, clientId, data }` that `log` folds the interceptors over. Its reads and order are in `SeedFields`, `SeedData` and `SeedOrder`. |
| Logger.SeedFields | packages/woodwork-logger/lib/woodwork-logger.js:57-61 | The seed reads the level, the event, and the logger's name as `service`. |
| Logger.SeedData | packages/woodwork-logger/lib/woodwork-logger.js:61-62 | The seed reads the options' `clientId` and the data. |
| Logger.SeedOrder | packages/woodwork-logger/lib/woodwork-logger.js:57-63 | The seed's keys are `level`, `event`, `service`, `clientId`, `data`, in that order. |
| Logger.LoggerOptions | packages/woodwork-logger/lib/woodwork-logger.js:25 | `merge({ clientId: getClientId() }, opts)`. Its properties are in `OptionsWithoutOpts`, `CallerOptionsWin`, `GeneratedClientId` and `CallerHooksKept`. |
| Logger.OptionsWithoutOpts | packages/woodwork-logger/tests/woodwork-logger.js:27-36 | A logger created without options has exactly `{ clientId }`. |
| Logger.CallerOptionsWin | packages/woodwork-logger/lib/woodwork-logger.js:25 | A logger's options have the caller's keys plus `clientId`. Every key the caller sets, `clientId` included, has the caller's value. |
| Logger.GeneratedClientId | packages/woodwork-logger/lib/woodwork-logger.js:25 | Without a `clientId` of the caller's, the logger reports the generated one. |
| Logger.CallerHooksKept | packages/woodwork-logger/lib/woodwork-logger.js:15 | The interceptors and the `request` sink of a created logger are the caller's. |
| Logger.Lookup | packages/woodwork-logger/lib/woodwork-logger.js:34-40 | The lookup of a name succeeds exactly when it is registered, with its logger. Otherwise it fails with `No instance found: <name>`. |
| Logger.Registry.constructor | packages/woodwork-logger/lib/woodwork-logger.js:10 | The registry starts with no loggers, with the generated client id and the auto-flush levels fixed. |
| Logger.Registry.Create | packages/woodwork-logger/lib/woodwork-logger.js:20-32 | For a registered name, `create` returns the registered logger and the registry is unchanged. For a new name, it registers a fresh logger under that name. That logger has the generated client id overridden by the caller's options, an empty buffer and the interceptors from those options. Every registered logger carries its own name. |
| Logger.Registry.Get | packages/woodwork-logger/lib/woodwork-logger.js:34-40 | `get` equals `Lookup` on the registry. A logger it returns carries the name asked for. |
| Logger.InstancesAt | packages/woodwork-logger/lib/woodwork-logger.js:21-35 | The `instances[name]` read as written: `Own` exactly when `name` is registered, holding its logger; `Inherited` exactly when `name` is not registered but is an `Object.prototype` member; `Absent` otherwise. |
| Logger.GetAsWritten | packages/woodwork-logger/lib/woodwork-logger.js:10 | As written, `get` fails only for a name that is neither registered nor a member of `Object.prototype`. |
| Logger.CreateAsWritten | packages/woodwork-logger/lib/woodwork-logger.js:20-26 | As written, `create` returns whatever `instances[name]` holds when it is truthy, an inherited `Object.prototype` member included, and registers the new logger only otherwise. |
| Logger.CreateAsWrittenAgrees | packages/woodwork-logger/lib/woodwork-logger.js:20-26 | For names outside `Object.prototype`, `create` as written returns and registers what `Registry.Create` does. |
| Logger.GetFindsInherited | packages/woodwork-logger/lib/woodwork-logger.js:20-40 | On an empty registry, `get('toString')` as written returns the inherited method, while `Lookup` fails, and `create('toString')` returns that method without registering a logger. |
| Logger.GetAsWrittenAgrees | packages/woodwork-logger/lib/woodwork-logger.js:35-39 | For names outside `Object.prototype`, `get` as written and `Lookup` agree. |

## Left out

- `safeInterval` and the `typeof window` guard (woodwork-logger.js:28-29) are timer plumbing. Periodic flushing is not modelled.
- `getClientId()` draws on `Math.random` and is memoised. The registry takes the client id as a constructor parameter.
- `AUTO_FLUSH_LEVEL` comes from `constants.js`, and the defaults come from `default-options.js`. Neither file is part of this model.
  - The auto-flush levels are a parameter of the registry. Their type `FlushLevels` requires `error` among them and `info` not, which is all the tests rely on.
  - `LEVELS` are debug, info, warn and error.
  - The defaults are `getOwnProperties` true with whitelist `message`, `name`, `stack`, which is what the tests rely on.
- The `for…of` loop that installs the level methods is modelled as the method `LogLevel`, which requires a level of `Levels`, and the four methods `Debug`, `Info`, `Warn` and `Error` that call it.
- JavaScript lists array-index keys (`"0"`, `"1"`, …) first, in ascending numeric order, and the other string keys after them in creation order. The model keeps every key in insertion order, so the order claims below hold only for objects without array-index keys. Reads, key sets and values do not depend on order and hold for all keys.
- `PropList.Put`: a new array-index key is appended, where JavaScript places it among the index keys.
- `PropList.PutKeyList`: the stated key order is insertion order; the array-index-first rule is not modelled.
- `Merge.MergedOrder`: the stated key order is `for…in` order only when no key is an array index.
- `Merge.CopyKeysOrder`: the stated key order is insertion order; the array-index-first rule is not modelled.
- `Js.PickOwnKeys`: `Object.getOwnPropertyNames` lists array-index keys first; the stated order is insertion order.
- The unreachable `!this.events` guard of `flush` is left out. `events` is always an array.
- What `request` does with a batch (an HTTP post in the tests) is not modelled. The sink only records its batches.
- Values are finite trees and are not shared. This leaves out several things:
  - cycles, and the exception `JSON.stringify` throws on them;
  - `undefined`, functions and floating point;
  - getters that throw;
  - aliasing between an event and the caller's object.

  Because values are not shared, the in-place updates of `event.data` are modelled as producing the new event value.
- Stack-trace contents are runtime-produced. `Boom` and `Custom` take the stack string as a parameter.
- `Logger.Opt` covers the option values the logger reads: data, a `request` sink, or an interceptor list. A truthy `request` or `interceptors` of another kind, and `clientId: undefined`, are not modelled. The last reads as `null`.
- Errors are modelled with their own properties and their prototype's. Nothing deeper in the prototype chain is modelled, and neither is assigning `__proto__`.
- `ErrorInterceptor.Transform`: a `null` event is returned unchanged, where reading `event.level` on `null` throws a TypeError.
- `ErrorInterceptor.Interceptor`: its pass-through covers a `null` event, on which the source throws. So when an earlier interceptor returns `null`, `Logger.Logger.Log` appends `null` where the source's `log` throws.
- `ErrorInterceptor.TransformIdempotent`: this is weaker than the informal claim. It requires that every `toJSON` result in `data` holds no Error. A `toJSON` that returns an Error would be exposed again on a second pass.

## Findings

The interceptor is meant to keep its configuration fixed once it is made. Its own-property walk is meant never to throw, whatever shape the error has. The code does neither, as the first two rows show. The rest of the model uses the intended behaviour.

| source | as written | input that shows it | evidently intended | confidence | as-written member | corrected member |
|---|---|---|---|---|---|---|
| packages/woodwork-interceptor-error/lib/woodwork-interceptor-error.js:28 | `Object.assign(defaultOptions, opts)` writes each caller's options into the one shared defaults object. | Run an interceptor made with `{ getOwnProperties: false }` once. Then one made with `{ whitelist: ['name'] }` still skips the own-property capture. | Each interceptor uses the defaults overridden by its own options. | not executed | ErrorInterceptor.DefaultsLeak | ErrorInterceptor.InterceptorUsesOwnOptions |
| packages/woodwork-interceptor-error/lib/woodwork-interceptor-error.js:4-8 | The recursion calls `Object.getOwnPropertyNames(obj[key])` even when `obj[key]` is `null`, which throws. | A nested error with own `code: null` whose `toJSON()` returns `{ code: {} }`. | The capture keeps the serialized value and does not throw. | not executed | ErrorInterceptor.CaptureThrows | ErrorInterceptor.OwnCaptureOfError |
| packages/woodwork-logger/lib/woodwork-logger.js:10 | `instances` is a plain `{}`, so `instances[name]` also finds `Object.prototype` members. | `get('toString')` on an empty registry returns a function instead of throwing. `create('toString')` returns that function, not a logger. | A registry with own entries only. | not executed | Logger.GetFindsInherited | Logger.Lookup |
