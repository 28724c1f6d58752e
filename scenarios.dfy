/** The behaviours the repository's tests describe, replayed through the
    object model: each method builds the object graph of one test, performs
    its reads and calls, and promises the callback log the test expects.
    The assertions before each step spell out, for the verifier, the
    property read and the group it records. */
module Scenarios {
  import opened PathModel
  import opened Engine
  import opened Proxy

  function Str(s: string): Value
  {
    Prim(StringType, s)
  }

  /** `{hello: 'world'}` read at `.hello`. */
  method GetValue() returns (value: Value, log: seq<Event>)
    ensures value == Str("world")
    ensures log == [Report([[BasePart("hello", StringType)]], Str("world"))]
  {
    var options := new Options.Defaults();
    var target := Obj(map["hello" := Str("world")], false);
    var root := new Tracer.Root(target, options);
    assert Follows(root.State(), options.shouldFollow, "hello") && IsLeaf(Str("world"));
    var seg := BasePart("hello", StringType);
    assert Property(target, "hello") == Str("world");
    assert Segment("hello", Str("world")) == seg;
    assert [] + [seg] == [seg];
    assert AppendToLast([[]], seg) == [[seg]];
    assert Recorded(root.State(), "hello") == [[seg]];
    assert GetTrap(root.State(), options.shouldFollow, "hello")
        == ReadStep(Raw(Str("world")), [Report([[seg]], Str("world"))], root.State());
    var h := root.Get("hello");
    value := h.value;
    log := options.log;
  }

  /** A fresh root over `{nested}`, with the default options. */
  method NestedRoot(nested: Value) returns (options: Options, root: Tracer)
    ensures options.log == [] && !options.hasSideEffect && forall x, k :: options.shouldFollow(x, k)
    ensures root.options == options && root.State() == Wrapper(Obj(map["nested" := nested], false), [[]], 0)
    ensures fresh(options) && fresh(root)
  {
    options := new Options.Defaults();
    root := new Tracer.Root(Obj(map["nested" := nested], false), options);
  }

  /** Reads `.nested` on the root over `{nested}`: a new wrapper of `nested`
      comes back, and neither the root nor the log changes. */
  method ReadNestedOf(root: Tracer, nested: Value) returns (t: Tracer)
    requires IsTraceableObject(nested) && forall x, k :: root.options.shouldFollow(x, k)
    requires root.State() == Wrapper(Obj(map["nested" := nested], false), [[]], 0)
    modifies root, root.options
    ensures t.options == root.options && t.State() == Wrapper(nested, [[BasePart("nested", ObjectType)]], 0)
    ensures root.State() == old(root.State()) && root.options.log == old(root.options.log) && fresh(t)
  {
    var target := Obj(map["nested" := nested], false);
    var seg1 := BasePart("nested", ObjectType);
    assert Follows(root.State(), root.options.shouldFollow, "nested");
    assert Property(target, "nested") == nested;
    assert Segment("nested", nested) == seg1;
    assert [] + [seg1] == [seg1];
    assert AppendToLast([[]], seg1) == [[seg1]];
    assert Recorded(root.State(), "nested") == [[seg1]];
    assert GetTrap(root.State(), root.options.shouldFollow, "nested")
        == ReadStep(Wrapped(Wrapper(nested, [[seg1]], 0)), [], root.State());
    var h1 := root.Get("nested");
    t := h1.wrapper;
  }

  /** Reads `.nested` on a fresh root over `{nested}`, with the default options. */
  method ReadNested(nested: Value) returns (options: Options, t: Tracer)
    requires IsTraceableObject(nested)
    ensures options.log == [] && !options.hasSideEffect && forall x, k :: options.shouldFollow(x, k)
    ensures t.options == options && t.State() == Wrapper(nested, [[BasePart("nested", ObjectType)]], 0)
    ensures fresh(options) && fresh(t)
  {
    var root;
    options, root := NestedRoot(nested);
    t := ReadNestedOf(root, nested);
  }

  /** A followed read of the leaf `v` at `key`, with no `then` to let through,
      reports `v` with the read recorded on the group. */
  lemma ReadOfLeaf(w: Wrapper, follow: (Value, string) -> bool, key: string, v: Value, p: PathPart)
    requires WrapperOk(w) && w.thenCount == 0 && Has(w.target, key) && follow(w.target, key)
    requires w.target.fields[key] == v && IsLeaf(v) && Segment(key, v) == p
    ensures GetTrap(w, follow, key) == ReadStep(Raw(v), [Report(AppendToLast(w.paths, p), v)], w)
  {
  }

  /** `{nested: {value: 'hello'}}` read at `.nested.value`. */
  method NestedValue() returns (value: Value, log: seq<Event>)
    ensures value == Str("hello")
    ensures log == [Report([[BasePart("nested", ObjectType), BasePart("value", StringType)]], Str("hello"))]
  {
    var nested := Obj(map["value" := Str("hello")], false);
    assert "byteLength" !in nested.fields;
    var options, t := ReadNested(nested);
    var seg1 := BasePart("nested", ObjectType);
    var w1 := Wrapper(nested, [[seg1]], 0);
    var seg2 := BasePart("value", StringType);
    assert [seg1] + [seg2] == [seg1, seg2];
    assert AppendToLast([[seg1]], seg2) == [[seg1, seg2]];
    var report := Report([[seg1, seg2]], Str("hello"));
    assert [] + [report] == [report];
    ReadOfLeaf(w1, options.shouldFollow, "value", Str("hello"), seg2);
    var h := t.Get("value");
    value := h.value;
    log := options.log;
  }

  /** Reads `.nested.fn` on a fresh root over `{nested: {fn}}` and hands back
      the trampoline, whose group ends with `fn`'s part of no arguments. */
  method NestedFunction() returns (options: Options, f: Trampoline)
    ensures options.log == [] && !options.hasSideEffect && forall x, k :: options.shouldFollow(x, k)
    ensures f.options == options
    ensures f.State() == Pending(Obj(map["fn" := Fn("fn")], false), "fn",
                                 [[BasePart("nested", ObjectType), FunctionPart("fn", [])]])
    ensures fresh(options) && fresh(f)
  {
    var nested := Obj(map["fn" := Fn("fn")], false);
    assert "byteLength" !in nested.fields;
    var t;
    options, t := ReadNested(nested);
    var seg1 := BasePart("nested", ObjectType);
    var w1 := Wrapper(nested, [[seg1]], 0);
    var seg2 := FunctionPart("fn", []);
    assert Follows(w1, options.shouldFollow, "fn");
    assert Property(nested, "fn") == Fn("fn");
    assert Segment("fn", Fn("fn")) == seg2;
    assert [seg1] + [seg2] == [seg1, seg2];
    assert AppendToLast([[seg1]], seg2) == [[seg1, seg2]];
    assert Recorded(w1, "fn") == [[seg1, seg2]];
    assert GetTrap(w1, options.shouldFollow, "fn")
        == ReadStep(Trampolined(Pending(nested, "fn", [[seg1, seg2]])), [], w1);
    var h := t.Get("fn");
    f := h.fn;
  }

  /** The path `.nested.fn(...args)` that calling the trampoline of
      `NestedFunction` with `args` records. */
  function NestedCall(p: Pending, args: seq<Value>): (call: Path)
    requires p.working == [[BasePart("nested", ObjectType), FunctionPart("fn", [])]] && p.key == "fn"
    ensures call == [BasePart("nested", ObjectType), FunctionPart("fn", args)]
    ensures PendingOk(p) && ReplaceLastPart(p.working, FunctionPart("fn", args)) == [call]
    ensures [call] + [[]] == [call, []] && Completed([call, []]) == [call]
  {
    var seg1 := BasePart("nested", ObjectType);
    assert [seg1, FunctionPart("fn", [])][..1] == [seg1];
    assert [seg1] + [FunctionPart("fn", args)] == [seg1, FunctionPart("fn", args)];
    [seg1, FunctionPart("fn", args)]
  }

  /** `.nested.fn('da')` where `fn` returns 'world': a literal result is
      reported with the call's group and returned as it is. */
  method FunctionCall() returns (r: Settled<Handle>, log: seq<Event>)
    ensures r == Direct(Raw(Str("world")))
    ensures log == [Report([[BasePart("nested", ObjectType), FunctionPart("fn", [Str("da")])]], Str("world"))]
  {
    var options, f := NestedFunction();
    var call := NestedCall(f.State(), [Str("da")]);
    assert Apply(f.State(), [Str("da")], Sync(Str("world")), false)
        == CallStep(Direct(Raw(Str("world"))), [Report([call], Str("world"))], f.State().(working := [call]));
    r := f.Invoke([Str("da")], Sync(Str("world")));
    log := options.log;
  }

  /** `.nested.fn('someArg').hello` where `fn` returns `{hello: 'world'}`:
      the call boundary starts a second path. */
  method FunctionReturnsObject() returns (value: Value, log: seq<Event>)
    ensures value == Str("world")
    ensures log == [Report([[BasePart("nested", ObjectType), FunctionPart("fn", [Str("someArg")])],
                            [BasePart("hello", StringType)]], Str("world"))]
  {
    var result := Obj(map["hello" := Str("world")], false);
    var options, t := NestedReturned(result);
    var call := [BasePart("nested", ObjectType), FunctionPart("fn", [Str("someArg")])];
    var w := Wrapper(result, [call, []], 0);
    var seg := BasePart("hello", StringType);
    assert [] + [seg] == [seg];
    assert AppendToLast([call, []], seg) == [call, [seg]];
    var report := Report([call, [seg]], Str("world"));
    assert [] + [report] == [report];
    ReadOfLeaf(w, options.shouldFollow, "hello", Str("world"), seg);
    var h := t.Get("hello");
    value := h.value;
    log := options.log;
  }

  /** Calls the trampoline of `NestedFunction` with `'someArg'`, the function
      returning the non-null object `result`, which comes back wrapped. */
  method NestedReturned(result: Value) returns (options: Options, t: Tracer)
    requires result.Obj?
    ensures options.log == [] && !options.hasSideEffect && forall x, k :: options.shouldFollow(x, k)
    ensures t.options == options
    ensures t.State() == Wrapper(result, [[BasePart("nested", ObjectType), FunctionPart("fn", [Str("someArg")])], []], 0)
    ensures fresh(options) && fresh(t)
  {
    var f;
    options, f := NestedFunction();
    var call := NestedCall(f.State(), [Str("someArg")]);
    var w := Wrapper(result, [call, []], 0);
    assert Apply(f.State(), [Str("someArg")], Sync(result), false)
        == CallStep(Direct(Wrapped(w)), [], f.State().(working := [call]));
    var r := f.Invoke([Str("someArg")], Sync(result));
    t := r.access.wrapper;
  }

  /** An async `fn` resolving to 5: the call itself is reported. */
  method AsyncFunctionReturnsLiteral() returns (r: Settled<Handle>, log: seq<Event>)
    ensures r == Resolves(Raw(Prim(NumberType, "5")))
    ensures log == [Report([[BasePart("nested", ObjectType), FunctionPart("fn", [Str("someArg")])]], Prim(NumberType, "5"))]
  {
    var options, f := NestedFunction();
    var call := NestedCall(f.State(), [Str("someArg")]);
    var five := Prim(NumberType, "5");
    assert !IsTraceableObject(five) && Awaited(false, [call, []], None) == [];
    assert [] + [Report([call], five)] == [Report([call], five)];
    assert Apply(f.State(), [Str("someArg")], Fulfilled(Prim(NumberType, "5")), false)
        == CallStep(Resolves(Raw(Prim(NumberType, "5"))), [Report([call], Prim(NumberType, "5"))], f.State().(working := [call]));
    r := f.Invoke([Str("someArg")], Fulfilled(Prim(NumberType, "5")));
    log := options.log;
  }

  /** An async `fn` resolving to a typed array: a data object is not
      re-wrapped, so the call is reported with it and the promise resolves to
      the array itself. */
  method AsyncFunctionReturnsTypedArray() returns (r: Settled<Handle>, log: seq<Event>)
    ensures r == Resolves(Raw(Obj(map["byteLength" := Prim(NumberType, "2")], false)))
    ensures log == [Report([[BasePart("nested", ObjectType), FunctionPart("fn", [Str("someArg")])]],
                           Obj(map["byteLength" := Prim(NumberType, "2")], false))]
  {
    var options, f := NestedFunction();
    var call := NestedCall(f.State(), [Str("someArg")]);
    var typedArray := Obj(map["byteLength" := Prim(NumberType, "2")], false);
    assert IsDataObject(typedArray) && !IsTraceableObject(typedArray);
    assert Awaited(false, [call, []], None) == [];
    assert [] + [Report([call], typedArray)] == [Report([call], typedArray)];
    assert Apply(f.State(), [Str("someArg")], Fulfilled(typedArray), false)
        == CallStep(Resolves(Raw(typedArray)), [Report([call], typedArray)], f.State().(working := [call]));
    r := f.Invoke([Str("someArg")], Fulfilled(typedArray));
    log := options.log;
  }

  /** Calls the trampoline of `NestedFunction` with `'someArg'`, the function
      fulfilling with the traceable `result`, and then makes the two `then`
      reads the runtime makes on the resolved wrapper. The first, when the
      fulfilment handler's own promise is resolved with the wrapper, passes
      through. The second, when the trampoline's promise adopts the wrapper,
      finds no `then` and reports the call's group with `result`. */
  method NestedResolved(result: Value) returns (options: Options, resolved: Tracer, thenValues: seq<Value>)
    requires IsTraceableObject(result) && !Has(result, "then")
    ensures options.log == [Report([[BasePart("nested", ObjectType), FunctionPart("fn", [Str("someArg")])]], result)]
    ensures !options.hasSideEffect && forall x, k :: options.shouldFollow(x, k)
    ensures resolved.options == options && thenValues == [Undefined, Undefined]
    ensures resolved.State() == Wrapper(result, [[BasePart("nested", ObjectType), FunctionPart("fn", [Str("someArg")])], []], 0)
    ensures fresh(options) && fresh(resolved)
  {
    var f;
    options, f := NestedFunction();
    var call := NestedCall(f.State(), [Str("someArg")]);
    var w := Wrapper(result, [call, []], 1);
    assert Awaited(false, [call, []], None) == [];
    assert Apply(f.State(), [Str("someArg")], Fulfilled(result), false)
        == CallStep(Resolves(Wrapped(w)), [], f.State().(working := [call]));
    var r := f.Invoke([Str("someArg")], Fulfilled(result));
    resolved := r.access.wrapper;
    assert resolved.State() == w;
    assert Property(result, "then") == Undefined;
    assert GetTrap(w, options.shouldFollow, "then") == ReadStep(Raw(Undefined), [], w.(thenCount := 0));
    var t1 := resolved.Get("then");
    var w0 := w.(thenCount := 0);
    assert !Follows(w0, options.shouldFollow, "then");
    assert GetTrap(w0, options.shouldFollow, "then") == ReadStep(Raw(Undefined), [Report([call], result)], w0);
    var t2 := resolved.Get("then");
    thenValues := [t1.value, t2.value];
  }

  /** An async `fn` resolving to `{hello: 'world'}`: the runtime's second
      `then` read reports the call's group with the object, and `.hello`
      continues the chain. */
  method AsyncFunctionReturnsObject() returns (thenValues: seq<Value>, value: Value, log: seq<Event>)
    ensures thenValues == [Undefined, Undefined] && value == Str("world")
    ensures log == [Report([[BasePart("nested", ObjectType), FunctionPart("fn", [Str("someArg")])]],
                           Obj(map["hello" := Str("world")], false)),
                    Report([[BasePart("nested", ObjectType), FunctionPart("fn", [Str("someArg")])],
                            [BasePart("hello", StringType)]], Str("world"))]
  {
    var result := Obj(map["hello" := Str("world")], false);
    assert "byteLength" !in result.fields && "then" !in result.fields;
    var options, resolved;
    options, resolved, thenValues := NestedResolved(result);
    var call := [BasePart("nested", ObjectType), FunctionPart("fn", [Str("someArg")])];
    var w := Wrapper(result, [call, []], 0);
    var seg := BasePart("hello", StringType);
    assert Follows(w, options.shouldFollow, "hello") && IsLeaf(Str("world"));
    assert Property(result, "hello") == Str("world");
    assert Segment("hello", Str("world")) == seg;
    assert [] + [seg] == [seg];
    assert AppendToLast([call, []], seg) == [call, [seg]];
    assert Recorded(w, "hello") == [call, [seg]];
    assert GetTrap(w, options.shouldFollow, "hello") == ReadStep(Raw(Str("world")), [Report([call, [seg]], Str("world"))], w);
    assert [Report([call], result)] + [Report([call, [seg]], Str("world"))]
        == [Report([call], result), Report([call, [seg]], Str("world"))];
    var h := resolved.Get("hello");
    value := h.value;
    log := options.log;
  }

  /** Reading the function `nested[key]` on the wrapper of `.nested` hands
      back its trampoline, with the function's part of no arguments last. */
  lemma ReadOfNestedFunction(nested: Value, follow: (Value, string) -> bool, key: string)
    requires nested.Obj? && key in nested.fields && nested.fields[key] == Fn(key) && forall x, k :: follow(x, k)
    ensures var seg1 := BasePart("nested", ObjectType);
            var w := Wrapper(nested, [[seg1]], 0);
            GetTrap(w, follow, key) == ReadStep(Trampolined(Pending(nested, key, [[seg1, FunctionPart(key, [])]])), [], w)
  {
    var seg1 := BasePart("nested", ObjectType);
    var fnSeg := FunctionPart(key, []);
    assert Segment(key, Fn(key)) == fnSeg;
    assert [seg1] + [fnSeg] == [seg1, fnSeg];
    assert AppendToLast([[seg1]], fnSeg) == [[seg1, fnSeg]];
  }

  /** Calling the trampoline of `nested[key]` with `args`, the function
      fulfilling with the traceable `result`: it resolves to `result` wrapped
      with the open group and a `then` counter of 1, and reports nothing yet. */
  lemma AsyncCallFulfils(nested: Value, key: string, args: seq<Value>, result: Value)
    requires IsTraceableObject(result)
    ensures var seg1 := BasePart("nested", ObjectType);
            var p := Pending(nested, key, [[seg1, FunctionPart(key, [])]]);
            var call := [seg1, FunctionPart(key, args)];
            PendingOk(p) &&
            Apply(p, args, Fulfilled(result), false)
              == CallStep(Resolves(Wrapped(Wrapper(result, [call, []], 1))), [], p.(working := [call]))
  {
    var seg1 := BasePart("nested", ObjectType);
    var call := [seg1, FunctionPart(key, args)];
    assert [seg1, FunctionPart(key, [])][..1] == [seg1];
    assert [seg1] + [FunctionPart(key, args)] == call;
    assert ReplaceLastPart([[seg1, FunctionPart(key, [])]], FunctionPart(key, args)) == [call];
    assert [call] + [[]] == [call, []];
    assert Awaited(false, [call, []], None) == [];
  }

  /** On the wrapper of a resolved `{hello}` over `[call, []]`: the first
      `then` read passes through, the second reports the call's group with
      the object, and `.hello` reports the second path with the string. */
  lemma ResolvedHelloReads(call: Path, follow: (Value, string) -> bool, result: Value, hello: Value)
    requires forall x, k :: follow(x, k)
    requires result == Obj(map["hello" := hello], false) && hello.Prim? && hello.kind == StringType
    ensures var w := Wrapper(result, [call, []], 1);
            var seg := BasePart("hello", StringType);
            GetTrap(w, follow, "then") == ReadStep(Raw(Undefined), [], w.(thenCount := 0)) &&
            GetTrap(w.(thenCount := 0), follow, "then") == ReadStep(Raw(Undefined), [Report([call], result)], w.(thenCount := 0)) &&
            GetTrap(w.(thenCount := 0), follow, "hello") == ReadStep(Raw(hello), [Report([call, [seg]], hello)], w.(thenCount := 0))
  {
    var seg := BasePart("hello", StringType);
    assert Completed([call, []]) == [call];
    assert "byteLength" !in result.fields && "then" !in result.fields;
    assert Segment("hello", hello) == seg;
    assert [] + [seg] == [seg];
    assert AppendToLast([call, []], seg) == [call, [seg]];
  }

  /** Calls the trampoline `f` of `nested[key]` with `args`, the function
      fulfilling with the traceable `result`: nothing is reported yet, and a
      fresh wrapper of `result` comes back over the open group. */
  method AwaitCall(nested: Value, options: Options, f: Trampoline, key: string, args: seq<Value>, result: Value)
    returns (resolved: Tracer)
    requires IsTraceableObject(result) && !options.hasSideEffect
    requires f.options == options && f.State() == Pending(nested, key, [[BasePart("nested", ObjectType), FunctionPart(key, [])]])
    modifies f, options
    ensures var call := [BasePart("nested", ObjectType), FunctionPart(key, args)];
            resolved.options == options && resolved.State() == Wrapper(result, [call, []], 1)
    ensures options.log == old(options.log) && fresh(resolved)
  {
    AsyncCallFulfils(nested, key, args, result);
    var c := f.Invoke(args, Fulfilled(result));
    resolved := c.access.wrapper;
  }

  /** The runtime's two `then` reads on the resolved wrapper of `{hello}`,
      then `.hello`: the group of the call is reported with the object, then
      the path through `hello` with the string. */
  method ReadResolvedHello(resolved: Tracer, call: Path, hello: Value) returns (value: Value)
    requires forall x, k :: resolved.options.shouldFollow(x, k)
    requires hello.Prim? && hello.kind == StringType
    requires resolved.State() == Wrapper(Obj(map["hello" := hello], false), [call, []], 1)
    modifies resolved, resolved.options
    ensures value == hello
    ensures resolved.options.log == old(resolved.options.log) + [Report([call], Obj(map["hello" := hello], false)),
                                                                 Report([call, [BasePart("hello", StringType)]], hello)]
  {
    ResolvedHelloReads(call, resolved.options.shouldFollow, Obj(map["hello" := hello], false), hello);
    var a := resolved.Get("then");
    var b := resolved.Get("then");
    var v := resolved.Get("hello");
    value := v.value;
  }

  /** Calls the trampoline `f` of `nested[key]` with `args`, the function
      fulfilling with `{hello}`, makes the runtime's two `then` reads on the
      resolved wrapper and reads `.hello`. */
  method AwaitAndReadHello(nested: Value, options: Options, f: Trampoline, key: string, args: seq<Value>, hello: Value)
    returns (value: Value)
    requires !options.hasSideEffect && forall x, k :: options.shouldFollow(x, k)
    requires hello.Prim? && hello.kind == StringType
    requires f.options == options && f.State() == Pending(nested, key, [[BasePart("nested", ObjectType), FunctionPart(key, [])]])
    modifies f, options
    ensures value == hello
    ensures var call := [BasePart("nested", ObjectType), FunctionPart(key, args)];
            options.log == old(options.log) + [Report([call], Obj(map["hello" := hello], false)),
                                               Report([call, [BasePart("hello", StringType)]], hello)]
  {
    var result := Obj(map["hello" := hello], false);
    assert "byteLength" !in result.fields;
    var resolved := AwaitCall(nested, options, f, key, args, result);
    value := ReadResolvedHello(resolved, [BasePart("nested", ObjectType), FunctionPart(key, args)], hello);
  }

  /** The first half of `TwoAsyncCalls`: `.nested.fn1('someArg')`, awaited,
      then `.hello` on its result; the root is left as it was. */
  method FirstAsyncCall(nested: Value) returns (options: Options, root: Tracer, first: Value)
    requires nested == Obj(map["fn1" := Fn("fn1"), "fn2" := Fn("fn2")], false)
    ensures first == Str("world")
    ensures options.log == [Report([[BasePart("nested", ObjectType), FunctionPart("fn1", [Str("someArg")])]],
                                   Obj(map["hello" := Str("world")], false)),
                            Report([[BasePart("nested", ObjectType), FunctionPart("fn1", [Str("someArg")])],
                                    [BasePart("hello", StringType)]], Str("world"))]
    ensures !options.hasSideEffect && forall x, k :: options.shouldFollow(x, k)
    ensures root.options == options && root.State() == Wrapper(Obj(map["nested" := nested], false), [[]], 0)
    ensures fresh(options) && fresh(root)
  {
    assert "byteLength" !in nested.fields;
    options, root := NestedRoot(nested);
    var t := ReadNestedOf(root, nested);
    ReadOfNestedFunction(nested, options.shouldFollow, "fn1");
    var h1 := t.Get("fn1");
    first := AwaitAndReadHello(nested, options, h1.fn, "fn1", [Str("someArg")], Str("world"));
  }

  /** Two awaited async calls from the same root, `.nested.fn1('someArg')`
      and `.nested.fn2()`, each followed by `.hello` on its result: four
      reports, in order, each call's group starting from the same `nested`
      path, because reads never change the root they are made on. */
  method TwoAsyncCalls() returns (first: Value, second: Value, log: seq<Event>)
    ensures first == Str("world") && second == Str("this is dog")
    ensures log == [Report([[BasePart("nested", ObjectType), FunctionPart("fn1", [Str("someArg")])]],
                           Obj(map["hello" := Str("world")], false)),
                    Report([[BasePart("nested", ObjectType), FunctionPart("fn1", [Str("someArg")])],
                            [BasePart("hello", StringType)]], Str("world")),
                    Report([[BasePart("nested", ObjectType), FunctionPart("fn2", [])]],
                           Obj(map["hello" := Str("this is dog")], false)),
                    Report([[BasePart("nested", ObjectType), FunctionPart("fn2", [])],
                            [BasePart("hello", StringType)]], Str("this is dog"))]
  {
    var nested := Obj(map["fn1" := Fn("fn1"), "fn2" := Fn("fn2")], false);
    var options, root;
    options, root, first := FirstAsyncCall(nested);
    assert "byteLength" !in nested.fields;
    var t := ReadNestedOf(root, nested);
    ReadOfNestedFunction(nested, options.shouldFollow, "fn2");
    var h2 := t.Get("fn2");
    second := AwaitAndReadHello(nested, options, h2.fn, "fn2", [], Str("this is dog"));
    log := options.log;
  }

  /** The filter of the test: keys starting with `_` are not followed. */
  predicate NoLeadingUnderscore(x: Value, k: string)
  {
    !(|k| > 0 && k[0] == '_')
  }

  /** Reads `.nested` with that filter on a fresh root over `{nested: {_fn}}`. */
  method FilteredNested() returns (options: Options, t: Tracer)
    ensures options.log == [] && options.shouldFollow == NoLeadingUnderscore && t.options == options
    ensures t.State() == Wrapper(Obj(map["_fn" := Fn("_fn")], false), [[BasePart("nested", ObjectType)]], 0)
    ensures fresh(options) && fresh(t)
  {
    options := new Options(NoLeadingUnderscore, false);
    var nested := Obj(map["_fn" := Fn("_fn")], false);
    var target := Obj(map["nested" := nested], false);
    var root := new Tracer.Root(target, options);
    var seg1 := BasePart("nested", ObjectType);
    assert "nested"[0] == 'n' && NoLeadingUnderscore(target, "nested");
    assert Follows(root.State(), options.shouldFollow, "nested");
    assert Property(target, "nested") == nested && "byteLength" !in nested.fields;
    assert IsTraceableObject(nested);
    assert Segment("nested", nested) == seg1;
    assert [] + [seg1] == [seg1];
    assert AppendToLast([[]], seg1) == [[seg1]];
    assert Recorded(root.State(), "nested") == [[seg1]];
    assert GetTrap(root.State(), options.shouldFollow, "nested")
        == ReadStep(Wrapped(Wrapper(nested, [[seg1]], 0)), [], root.State());
    var h1 := root.Get("nested");
    t := h1.wrapper;
  }

  /** A filter refusing keys that start with `_` stops at `._fn` without a
      report, since the group before it has no finished path yet, and the raw
      function comes back. */
  method FilterRefusesKey() returns (value: Value, log: seq<Event>)
    ensures value == Fn("_fn")
    ensures log == []
  {
    var options, t := FilteredNested();
    var nested := Obj(map["_fn" := Fn("_fn")], false);
    var w := Wrapper(nested, [[BasePart("nested", ObjectType)]], 0);
    assert "_fn"[0] == '_' && !NoLeadingUnderscore(nested, "_fn");
    assert !Follows(w, options.shouldFollow, "_fn");
    assert Property(nested, "_fn") == Fn("_fn");
    assert Completed(w.paths) == [];
    assert GetTrap(w, options.shouldFollow, "_fn") == ReadStep(Raw(Fn("_fn")), [], w);
    var h := t.Get("_fn");
    value := h.value;
    log := options.log;
  }

  /** `{}` read at `.hello`: undefined, and a root never reports a stop. */
  method MissingKeyAtRoot() returns (value: Value, log: seq<Event>)
    ensures value == Undefined && log == []
  {
    var options := new Options.Defaults();
    var root := new Tracer.Root(Obj(map[], false), options);
    var h := root.Get("hello");
    value := h.value;
    log := options.log;
  }

  /** A typed array (it has a numeric `byteLength`) read from an async result
      is a leaf tagged `object`, reported as itself, after the report of the
      runtime's second `then` read. */
  method TypedArrayIsLiteral() returns (value: Value, log: seq<Event>)
    ensures value == Obj(map["byteLength" := Prim(NumberType, "2")], false)
    ensures log == [Report([[BasePart("nested", ObjectType), FunctionPart("fn", [Str("someArg")])]],
                           Obj(map["hello" := Obj(map["byteLength" := Prim(NumberType, "2")], false)], false)),
                    Report([[BasePart("nested", ObjectType), FunctionPart("fn", [Str("someArg")])],
                            [BasePart("hello", ObjectType)]], Obj(map["byteLength" := Prim(NumberType, "2")], false))]
  {
    var typedArray := Obj(map["byteLength" := Prim(NumberType, "2")], false);
    var result := Obj(map["hello" := typedArray], false);
    assert "byteLength" !in result.fields && "then" !in result.fields;
    var options, resolved, _ := NestedResolved(result);
    var call := [BasePart("nested", ObjectType), FunctionPart("fn", [Str("someArg")])];
    var w := Wrapper(result, [call, []], 0);
    var seg := BasePart("hello", ObjectType);
    assert Follows(w, options.shouldFollow, "hello");
    assert Property(result, "hello") == typedArray;
    assert IsDataObject(typedArray) && IsLeaf(typedArray);
    assert Segment("hello", typedArray) == seg;
    assert [] + [seg] == [seg];
    assert AppendToLast([call, []], seg) == [call, [seg]];
    assert Recorded(w, "hello") == [call, [seg]];
    assert GetTrap(w, options.shouldFollow, "hello") == ReadStep(Raw(typedArray), [Report([call, [seg]], typedArray)], w);
    assert [Report([call], result)] + [Report([call, [seg]], typedArray)]
        == [Report([call], result), Report([call, [seg]], typedArray)];
    var h := resolved.Get("hello");
    value := h.value;
    log := options.log;
  }

  /** Reads `.goto` on a fresh root over `{goto}` and hands back the trampoline. */
  method Goto() returns (options: Options, f: Trampoline)
    ensures options.log == [] && !options.hasSideEffect && forall x, k :: options.shouldFollow(x, k)
    ensures f.options == options
    ensures f.State() == Pending(Obj(map["goto" := Fn("goto")], false), "goto", [[FunctionPart("goto", [])]])
    ensures fresh(options) && fresh(f)
  {
    options := new Options.Defaults();
    var target := Obj(map["goto" := Fn("goto")], false);
    var root := new Tracer.Root(target, options);
    var seg := FunctionPart("goto", []);
    assert Follows(root.State(), options.shouldFollow, "goto");
    assert Property(target, "goto") == Fn("goto");
    assert Segment("goto", Fn("goto")) == seg;
    assert [] + [seg] == [seg];
    assert AppendToLast([[]], seg) == [[seg]];
    assert Recorded(root.State(), "goto") == [[seg]];
    assert GetTrap(root.State(), options.shouldFollow, "goto")
        == ReadStep(Trampolined(Pending(target, "goto", [[seg]])), [], root.State());
    var h := root.Get("goto");
    f := h.fn;
  }

  /** The path `.goto(...args)` that calling the trampoline of `Goto` with
      `args` records. */
  function GotoCall(p: Pending, args: seq<Value>): (call: Path)
    requires p.working == [[FunctionPart("goto", [])]] && p.key == "goto"
    ensures call == [FunctionPart("goto", args)]
    ensures PendingOk(p) && ReplaceLastPart(p.working, FunctionPart("goto", args)) == [call]
    ensures [call] + [[]] == [call, []] && Completed([call, []]) == [call]
  {
    assert [FunctionPart("goto", [])][..0] == [];
    assert [] + [FunctionPart("goto", args)] == [FunctionPart("goto", args)];
    [FunctionPart("goto", args)]
  }

  /** `goto` returning a promise of 'hello': the call is reported with it. */
  method PromiseOfLiteral() returns (r: Settled<Handle>, log: seq<Event>)
    ensures r == Resolves(Raw(Str("hello")))
    ensures log == [Report([[FunctionPart("goto", [Str("http://yury.com")])]], Str("hello"))]
  {
    var options, f := Goto();
    var call := GotoCall(f.State(), [Str("http://yury.com")]);
    assert Awaited(false, [call, []], None) == [];
    assert [] + [Report([call], Str("hello"))] == [Report([call], Str("hello"))];
    assert Apply(f.State(), [Str("http://yury.com")], Fulfilled(Str("hello")), false)
        == CallStep(Resolves(Raw(Str("hello"))), [Report([call], Str("hello"))], f.State().(working := [call]));
    r := f.Invoke([Str("http://yury.com")], Fulfilled(Str("hello")));
    log := options.log;
  }

  /** A promise of `{name, fn}` awaited and never read: the runtime's second
      `then` read reports the call's group with the object itself. */
  method PromiseOfObjectUnread() returns (log: seq<Event>)
    ensures log == [Report([[FunctionPart("goto", [Str("http://yury.com")])]],
                           Obj(map["name" := Str("yury"), "fn" := Fn("fn")], false))]
  {
    var result := Obj(map["name" := Str("yury"), "fn" := Fn("fn")], false);
    assert "byteLength" !in result.fields && "then" !in result.fields;
    var options, resolved := GotoResolved(result);
    log := options.log;
  }

  /** A promise that is resolved (not rejected) with an error object: the
      error is a traceable object, so, as for any resolved object, the
      runtime's second `then` read reports the call's group with it. */
  method PromiseOfErrorObject() returns (log: seq<Event>)
    ensures log == [Report([[FunctionPart("goto", [Str("http://yury.com")])]],
                           Obj(map["message" := Str("Bad error!")], false))]
  {
    var error := Obj(map["message" := Str("Bad error!")], false);
    assert "byteLength" !in error.fields && "then" !in error.fields;
    var options, resolved := GotoResolved(error);
    log := options.log;
  }

  /** An async function that throws: the error is reported with the call's
      group and the returned promise rejects with the same error. */
  method RejectedPromise() returns (r: Settled<Handle>, log: seq<Event>)
    ensures r == Fails(Str("Bad error!"))
    ensures log == [Report([[FunctionPart("goto", [Str("http://yury.com")])]], Str("Bad error!"))]
  {
    var options, f := Goto();
    var error := Str("Bad error!");
    var call := GotoCall(f.State(), [Str("http://yury.com")]);
    assert Awaited(false, [call, []], Some(error)) == [];
    assert [] + [Report([call], error)] == [Report([call], error)];
    assert Apply(f.State(), [Str("http://yury.com")], Rejected(error), false)
        == CallStep(Fails(error), [Report([call], error)], f.State().(working := [call]));
    r := f.Invoke([Str("http://yury.com")], Rejected(error));
    log := options.log;
  }

  /** A promise resolving to `{name, fn}`: after the report of the runtime's
      second `then` read, reading `.name` and calling `.fn()` on the resolved
      object report two groups that share the call's path. */
  method PromiseOfComplexObject() returns (name: Value, fnResult: Value, log: seq<Event>)
    ensures name == Str("yury") && fnResult == Str("hello")
    ensures log == [Report([[FunctionPart("goto", [Str("http://yury.com")])]],
                           Obj(map["name" := Str("yury"), "fn" := Fn("fn")], false)),
                    Report([[FunctionPart("goto", [Str("http://yury.com")])], [BasePart("name", StringType)]], Str("yury")),
                    Report([[FunctionPart("goto", [Str("http://yury.com")])], [FunctionPart("fn", [])]], Str("hello"))]
  {
    var options, resolved;
    options, resolved, name := GotoResolvedName();
    var result := Obj(map["name" := Str("yury"), "fn" := Fn("fn")], false);
    var call := [FunctionPart("goto", [Str("http://yury.com")])];
    var w := Wrapper(result, [call, []], 0);
    var fnSeg := FunctionPart("fn", []);
    assert Follows(w, options.shouldFollow, "fn");
    assert Property(result, "fn") == Fn("fn");
    assert Segment("fn", Fn("fn")) == fnSeg;
    assert [] + [fnSeg] == [fnSeg];
    assert AppendToLast([call, []], fnSeg) == [call, [fnSeg]];
    assert Recorded(w, "fn") == [call, [fnSeg]];
    var p := Pending(result, "fn", [call, [fnSeg]]);
    assert GetTrap(w, options.shouldFollow, "fn") == ReadStep(Trampolined(p), [], w);
    var fh := resolved.Get("fn");
    assert [fnSeg][..0] == [];
    assert ReplaceLastPart([call, [fnSeg]], FunctionPart("fn", [])) == [call, [fnSeg]];
    assert Completed([call, [fnSeg], []]) == [call, [fnSeg]];
    assert Apply(p, [], Sync(Str("hello")), false)
        == CallStep(Direct(Raw(Str("hello"))), [Report([call, [fnSeg]], Str("hello"))], p);
    var c := fh.fn.Invoke([], Sync(Str("hello")));
    fnResult := c.access.value;
    log := options.log;
  }

  /** `GotoResolved` followed by the read of `.name`. */
  method GotoResolvedName() returns (options: Options, resolved: Tracer, name: Value)
    ensures options.log == [Report([[FunctionPart("goto", [Str("http://yury.com")])]],
                                   Obj(map["name" := Str("yury"), "fn" := Fn("fn")], false)),
                            Report([[FunctionPart("goto", [Str("http://yury.com")])], [BasePart("name", StringType)]], Str("yury"))]
    ensures !options.hasSideEffect && forall x, k :: options.shouldFollow(x, k)
    ensures resolved.options == options && name == Str("yury")
    ensures resolved.State() == Wrapper(Obj(map["name" := Str("yury"), "fn" := Fn("fn")], false),
                                        [[FunctionPart("goto", [Str("http://yury.com")])], []], 0)
    ensures fresh(options) && fresh(resolved)
  {
    var result := Obj(map["name" := Str("yury"), "fn" := Fn("fn")], false);
    assert "byteLength" !in result.fields && "then" !in result.fields;
    options, resolved := GotoResolved(result);
    var call := [FunctionPart("goto", [Str("http://yury.com")])];
    var w := Wrapper(result, [call, []], 0);
    var nameSeg := BasePart("name", StringType);
    assert Follows(w, options.shouldFollow, "name") && IsLeaf(Str("yury"));
    assert Property(result, "name") == Str("yury");
    assert Segment("name", Str("yury")) == nameSeg;
    assert [] + [nameSeg] == [nameSeg];
    assert AppendToLast([call, []], nameSeg) == [call, [nameSeg]];
    assert Recorded(w, "name") == [call, [nameSeg]];
    assert GetTrap(w, options.shouldFollow, "name") == ReadStep(Raw(Str("yury")), [Report([call, [nameSeg]], Str("yury"))], w);
    assert [Report([call], result)] + [Report([call, [nameSeg]], Str("yury"))]
        == [Report([call], result), Report([call, [nameSeg]], Str("yury"))];
    var n := resolved.Get("name");
    name := n.value;
  }

  /** `goto` fulfilling with the traceable `result`, and the runtime's two
      `then` reads on the resolved wrapper, as in `NestedResolved`: the second
      reports the call's group with `result`. */
  method GotoResolved(result: Value) returns (options: Options, resolved: Tracer)
    requires IsTraceableObject(result) && !Has(result, "then")
    ensures options.log == [Report([[FunctionPart("goto", [Str("http://yury.com")])]], result)]
    ensures !options.hasSideEffect && forall x, k :: options.shouldFollow(x, k)
    ensures resolved.options == options
    ensures resolved.State() == Wrapper(result, [[FunctionPart("goto", [Str("http://yury.com")])], []], 0)
    ensures fresh(options) && fresh(resolved)
  {
    var f;
    options, f := Goto();
    var call := GotoCall(f.State(), [Str("http://yury.com")]);
    var w := Wrapper(result, [call, []], 1);
    assert Awaited(false, [call, []], None) == [];
    assert Apply(f.State(), [Str("http://yury.com")], Fulfilled(result), false)
        == CallStep(Resolves(Wrapped(w)), [], f.State().(working := [call]));
    var r := f.Invoke([Str("http://yury.com")], Fulfilled(result));
    resolved := r.access.wrapper;
    assert resolved.State() == w;
    assert Property(result, "then") == Undefined;
    assert GetTrap(w, options.shouldFollow, "then") == ReadStep(Raw(Undefined), [], w.(thenCount := 0));
    var t1 := resolved.Get("then");
    var w0 := w.(thenCount := 0);
    assert !Follows(w0, options.shouldFollow, "then");
    assert GetTrap(w0, options.shouldFollow, "then") == ReadStep(Raw(Undefined), [Report([call], result)], w0);
    var t2 := resolved.Get("then");
  }
}
