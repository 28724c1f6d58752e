# proxy-trace-access, modelled in Dafny

`tracePropAccess(obj, options)` wraps an object graph in a JavaScript `Proxy`.
The proxy records every property read and function call as a *path group*: a
sequence of paths, where each path is a sequence of parts (`{key, type}` for a
plain read, `{key, type: 'function', callArgs}` for a call). Each call starts
a new path, which marks the call boundary. The caller's `callback(group,
value)` receives each finished trace. Traces finish at these points:

- a leaf read;
- a read the filter `shouldFollow` refuses, or of a missing key;
- the result of a traced call: synchronous, a fulfilled promise or a
  rejected promise.

The model has five modules.

- `PathModel` (`path_model.dfy`) holds the data model:
  - the `typeof` tags;
  - an explicit tagged `Value` for the traced graph: primitives, `null`,
    objects with a map of fields and a buffer flag, and functions as opaque
    names;
  - path parts, paths and groups;
  - the classifications of `isDataObject` and of the segment tag;
  - the group operations the engine uses (`slice(0, -1)`, append to the last
    path, replace the last part).
- `Engine` (`engine.dfy`) holds the rules as pure functions:
  - `GetTrap` is the proxy's `get` trap on a wrapper state `(target, paths,
    thenOverHeadCount)`;
  - `Apply` is one call of a trampoline.

  Each returns what the caller receives, the hook calls made, in order, and
  the state left behind.
- `Proxy` (`proxy.dfy`) holds the objects:
  - `Options` carries the hook log;
  - `Tracer` is one proxy, with a fixed group and a mutable `then` counter;
  - `Trampoline` is the function handed out for a traced function. It rewrites
    its group's last part in place when called.

  `Tracer.Get`, `Tracer.Stop`, `Tracer.Extend` and `Trampoline.Invoke` are
  proved to do exactly what `GetTrap` or `Apply` says. The hook methods of
  `Options` and `Trampoline.FinishFunctionTracing` are specified by the log
  entry they append.
- `Chains` (`chains.dfy`) strings reads and calls into a chain, the way a
  caller writes `proxied.a.b(x).c`. It proves three properties about such
  chains:
  - every group a hook receives begins with the finished paths the chain
    started from;
  - a key the filter refuses never appears in a reported group;
  - a chain of reads ending at a leaf reports exactly once, with the parts
    read and the leaf value.
- `Scenarios` (`scenarios.dfy`) replays the tests of `index.spec.ts` at
  lines 4-301 on the classes, one method per test (two for the test at
  123-161, which is split in halves). Each method ends in the exact log of
  callback arguments the model produces. A scenario with a resolved traceable
  object makes the two `then` reads the JavaScript runtime makes on it. The
  tests at 303-401 are not replayed (see below).

Callers read through `Tracer.Get(key)` and call through
`Trampoline.Invoke(args, outcome)`, instead of going through transparent
interception. The underlying function is foreign code. What it does when
called is the `outcome` parameter: it returns a value, or returns a promise
that is fulfilled or rejected.

Points where the code's behaviour is easy to misread:

- The tests exercise a `maybeCreateAsyncTrap` option (index.spec.ts:303-401),
  but it is not among `TracePropAccessOptions` (index.ts:25-29) and the
  engine never calls it, so the model has none.
- The code re-wraps every non-null synchronous object that a call returns,
  including buffers and typed arrays (`index.ts:135`). It applies no
  `isDataObject` test there, and the model does not either.
- A present, followed key whose value is a data object is a leaf, tagged
  `object` and reported as itself (`index.ts:82-83, 140`).
- On a stop, the code reports the paths so far only when there are some
  (`index.ts:58-61`). A root wrapper therefore never reports a stop.
- The code awaits `asyncResultSideEffect` before every callback on an
  asynchronous path, so the model records that call before the report.
- A fulfilled traceable object gets two `then` reads from the runtime. The
  first happens when the fulfilment handler's own promise is resolved with the
  wrapper; it passes through and brings the counter to 0. The second happens
  when the trampoline's promise adopts that wrapper; it finds no `then`, so it
  is a stop, and it reports the call's group with the raw object
  (index.spec.ts:144-146, 260).
- In the test at index.spec.ts:264-282, the executor's first parameter is
  named `reject`, but it is the resolve function. The promise is fulfilled
  with the error object, which is traceable, so the report comes from the
  second `then` read.

## Model

| member | source | states |
|---|---|---|
| PathModel.TypeOf | index.ts:1-10 | `typeof`: "function" exactly for functions, "object" exactly for objects and `null`, a primitive's own tag otherwise |
| PathModel.Property | index.ts:47 | the definition of `Reflect.get` on the model's values: the field's value when the key is present, `undefined` otherwise |
| PathModel.Has | index.ts:55 | the definition of `propKey in target` on the model's values: an object with the key among its fields; `Engine.GetTrap` states the stop taken when it fails |
| PathModel.IsTraceableObject | index.ts:82-83 | the definition of the re-wrap test, also at index.ts:120-124: `typeof` "object", not `null` and not a data object; `Engine.GetTrap` and `Engine.Apply` state that exactly such values come back wrapped |
| PathModel.IsLeaf | index.ts:82-87 | the definition of the fall-through to the leaf report at index.ts:140: neither a traceable object nor a function; `Engine.GetTrap` states that a followed read of such a value reports it |
| PathModel.IsDataObject | index.ts:31-32 | the definition of `isDataObject`: an object that is a buffer or has a numeric `byteLength`; its consequences are stated by `PathModel.DataObjectIsLeaf` |
| PathModel.DataObjectIsLeaf | index.ts:82-83 | a data object is tagged "object", is not re-wrapped and is a leaf, so a read of it records a plain part tagged "object" and reports the object itself |
| PathModel.Segment | index.ts:66-76 | the part recorded for a read has the read's key; it is a function part exactly when the value is a function, then with no arguments; its tag is `typeof value`, so `null` and data objects are tagged "object" |
| PathModel.Completed | index.ts:58 | `paths.slice(0, -1)`: all paths but the last, unchanged and in order; empty for an empty group |
| PathModel.AppendToLast | index.ts:78-81 | the copy's last path is the old last path plus the new part; the length and every earlier path stay as they were |
| PathModel.ReplaceLastPart | index.ts:89-94 | pop then push on the last path: same number of paths and of parts, earlier paths and parts untouched, the final part replaced |
| PathModel.StartsWithTransitive | index.spec.ts:57 | the prefix relation between groups is transitive |
| Engine.PassesThen | index.ts:49-52 | the definition of the `then` pass-through test: the key is `then` and the counter is positive; `Engine.GetTrap` states what the read then does |
| Engine.Follows | index.ts:54-56 | the definition of the follow test: the key is present on the target and the filter accepts it; `Engine.GetTrap` states the stop taken otherwise |
| Engine.Recorded | index.ts:64-81 | the group a followed read records: the wrapper's group with the read's segment appended to a copy of its last path |
| Engine.GetTrap | index.ts:46-141 | the `get` trap: a `then` read while the counter is positive decrements it and returns the raw property, with no report; a missing or refused key returns the raw property and reports the finished paths with the target only when there are some; a followed leaf reports the recorded group with the value; a traceable object comes back wrapped with the recorded group and a zero counter; a function comes back as a trampoline over the recorded group; the wrapper's own group never changes, and what comes back always stands for the raw property |
| Engine.Apply | index.ts:88-135 | one trampoline call: the function part gets `args` and nothing else in the group changes; a synchronous non-object or `null` is reported with the call's group and returned raw; any other synchronous object is wrapped with the open group (a trailing empty path) and not reported; a rejection awaits the side-effect hook, reports the error with the call's group and rejects with the same error; a fulfilled traceable object awaits the hook and is wrapped with the open group and a `then` counter of 1; any other fulfilment awaits the hook, is reported and resolves raw |
| Chains.ReadKeepsBase | index.ts:54-85 | a read's report begins with the wrapper's finished paths, and a wrapper or trampoline it hands back keeps those finished paths |
| Chains.CallKeepsBase | index.ts:88-135 | every hook call of a trampoline call begins with the call's group, which begins with the trampoline's finished paths; a wrapper it returns has the call's group as its finished paths |
| Chains.StepKeepsBase | index.ts:46-135 | one read or call: every report begins with the finished paths of what it started from, and what it hands on carries finished paths that begin with them too |
| Chains.SilentAfterRawOrFailure | index.ts:104-141 | once a raw value is handed back (index.ts:106, 131, 141) or the call's promise rejects (index.ts:118), nothing more reaches a hook |
| Chains.RunExtendsBase | index.ts:78-95 | prefix relation: along any chain of reads and calls, every group a hook receives begins with the finished paths of the group the chain started from |
| Chains.CallGroupPrefixesLaterGroups | index.ts:95-135 | after a call, the call's own report and every later report made through its result begin with the call's group exactly as recorded, function part and arguments included |
| Chains.ReadKeepsKeyAbsent | index.ts:54-63 | a read never brings a key the filter always refuses into a group it reports or hands on |
| Chains.CallKeepsKeyAbsent | index.ts:88-95 | a call never brings a refused key into its groups; the part it rewrites is the function's own |
| Chains.StepKeepsKeyAbsent | index.ts:54-95 | one read or call keeps a refused key out of every group it reports and hands on |
| Chains.RefusedKeyNeverReported | index.ts:54-63 | along any chain, when the filter always refuses a key, no reported group mentions that key |
| Chains.RunReadOfLeaf | index.ts:140-141 | a followed leaf read ends a chain with one report of the recorded group and hands back the leaf raw |
| Chains.RunReadOfObject | index.ts:82-85 | a traceable object read silently continues the chain on the wrapper over the recorded group |
| Chains.LeafChainReportsOnce | index.ts:64-141 | a chain of followed reads through traceable objects to a leaf makes exactly one callback. The callback gets the starting group with one part per key appended to its last path, and the leaf value. The leaf itself is handed back |
| Proxy.Options.constructor | index.ts:40-44 | options with the given filter and hook, and an empty log |
| Proxy.Options.Defaults | index.ts:40-44 | the defaults: follow every key, no side-effect hook, nothing logged |
| Proxy.Options.Callback | index.ts:26 | the callback is recorded once, with exactly its group and value |
| Proxy.Options.WaitForSideEffect | index.ts:110-114 | the side-effect hook is awaited with the group and the error exactly when it is configured |
| Proxy.Tracer.constructor | index.ts:34-39 | a wrapper over the given target, group and `then` counter |
| Proxy.Tracer.Root | index.ts:37-38 | the public entry point on an object or function target: one empty path and a zero counter |
| Proxy.Tracer.Get | index.ts:46-141 | the trap on the object: the new counter, the hook calls and the handle returned are exactly `GetTrap`'s, and a returned wrapper or trampoline is new |
| Proxy.Tracer.Stop | index.ts:54-63 | a missing or refused key: the finished paths are reported with the target when there are some, and the raw property comes back |
| Proxy.Tracer.Extend | index.ts:64-141 | a followed key: the read is recorded on a copy of the group, and the value is wrapped, made a trampoline or reported, as `GetTrap` says |
| Proxy.Trampoline.constructor | index.ts:88 | a trampoline over the receiver, the key and the group ending in the function's part |
| Proxy.Trampoline.FinishFunctionTracing | index.ts:99-102 | drops the trailing empty path and reports the rest with the value |
| Proxy.Trampoline.Invoke | index.ts:88-136 | the call on the object: the rewritten group, the hook calls and the result are exactly `Apply`'s, and a returned wrapper is new |
| Scenarios.GetValue | index.spec.ts:4-14 | `{hello: 'world'}` read at `.hello` returns 'world' and reports `[[{hello, string}]]` with 'world' |
| Scenarios.NestedValue | index.spec.ts:16-28 | `.nested.value` returns 'hello' and reports one path of two parts with 'hello' |
| Scenarios.FunctionCall | index.spec.ts:31-42 | `.nested.fn('da')`, with `fn` returning 'world': the call returns 'world' raw and reports the call's group with it |
| Scenarios.FunctionReturnsObject | index.spec.ts:44-58 | `.nested.fn('someArg').hello` reports the call's path with its argument, then a second path `[{hello, string}]`, with 'world' |
| Scenarios.AsyncFunctionReturnsLiteral | index.spec.ts:60-74 | an async `fn` resolving to 5 resolves to 5 and reports the call's group with 5 |
| Scenarios.AsyncFunctionReturnsObject | index.spec.ts:76-92 | an async `fn` resolving to `{hello}`: both runtime `then` reads return undefined; the first passes through, the second reports the call's group with the object, and then `.hello` reports both paths with 'world' |
| Scenarios.TwoAsyncCalls | index.spec.ts:123-161 | two awaited async calls, each reading `.nested` again from the same root, each followed by `.hello`: exactly the four reports of the test, in order, each group starting from the same `nested` part |
| Scenarios.AsyncFunctionReturnsTypedArray | index.spec.ts:163-180 | an async `fn` resolving to a typed array: the promise resolves to the array itself, not a wrapper, and the call's group is reported with it |
| Scenarios.FilterRefusesKey | index.spec.ts:94-111 | a filter refusing `_fn` hands back the raw function and no callback fires |
| Scenarios.MissingKeyAtRoot | index.spec.ts:113-121 | `{}` read at `.hello` returns undefined and no callback fires |
| Scenarios.TypedArrayIsLiteral | index.spec.ts:182-199 | after the report of the runtime's second `then` read, a typed array read from the async result is a leaf tagged "object", reported as itself |
| Scenarios.PromiseOfLiteral | index.spec.ts:202-216 | `goto` returning a promise of 'hello': the promise resolves to 'hello' and the call's group is reported with it |
| Scenarios.PromiseOfComplexObject | index.spec.ts:218-240 | a promise of `{name, fn}`: after the report of the runtime's second `then` read, `.name` and `.fn()` report two groups that share the call's path, with 'yury' and 'hello' |
| Scenarios.PromiseOfObjectUnread | index.spec.ts:243-261 | a promise of `{name, fn}`, awaited and never read: the one report is the call's group with the object itself, made by the runtime's second `then` read |
| Scenarios.PromiseOfErrorObject | index.spec.ts:264-282 | a promise fulfilled with an error object: the one report is the call's group with that object |
| Scenarios.RejectedPromise | index.spec.ts:284-301 | an async function that throws: the error is reported with the call's group, and the promise rejects with it |

## Left out

- Transparent interception: callers go through `Tracer.Get` and `Trampoline.Invoke` explicitly. `in` looks only at an object's own fields (the model has no prototype chain). Only string keys are modelled; symbol keys and `propKey.toString()` are not.
- Promise scheduling: an asynchronous result is modelled as an outcome already settled when the call is made. The runtime's `then` reads on a resolved wrapper are not derived from promise semantics. The scenarios make the two reads explicitly, and `Engine.GetTrap` states the rule for each.
- `asyncResultSideEffect`: the model records only that the hook is awaited, with the group and the error, before the callback. What the hook does is not modelled.
- `maybeCreateAsyncTrap`: the engine never calls it, and it is not among the options. So the tests at index.spec.ts:303-401, which exercise it, are not replayed.
- `Buffer.isBuffer`: it is the `isBuffer` flag on an object. The `byteLength` test is computed from the fields.
- Synchronous throws from the underlying function or from a hook: the code has no `try`, so they simply propagate. They are not modelled.
- A synchronous result that is a non-promise object with a `then` method: the model treats only the `Fulfilled` and `Rejected` outcomes as promises.
- Proxy.Trampoline.Invoke: does not model a second call of the same trampoline. In the code, `newPaths` shares its inner arrays with `workingPaths`, so a later call's `pop`/`push` also changes the group an earlier call handed on. The model's groups are values, so each call's group is its own.
- What a function does with its arguments and its receiver: the result of each call is the `outcome` parameter.
- Properties of a function value and a function as the root target: a function is an opaque name with no fields.
- Proxy.Tracer.Root: requires an object or a function as the target. For a primitive or `null` target, `new Proxy` throws a `TypeError`; the model excludes that case instead of modelling the error.
- Proxy.Tracer.constructor: requires a non-empty group and an object or function target. On `[]`, the code's first followed read throws, at `workingPaths[workingPaths.length - 1]` (index.ts:78-79), while stop and `then` reads work; `[[]]` is the default of the optional `paths` parameter (index.ts:37). For a primitive or `null` target, `new Proxy` throws a `TypeError` (index.ts:45).
- The default no-op `callback`: every callback, the default included, is recorded in the log.
