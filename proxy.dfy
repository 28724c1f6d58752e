/** The tracer as objects. A `Tracer` is one proxy: its target and group are
    fixed when it is made, and only its `then` counter changes. A `Trampoline`
    is the function handed out in place of a traced function, and it rewrites
    its group in place when it is called. Instead of transparent interception,
    callers read through `Tracer.Get` and call through `Trampoline.Invoke`.
    Each method is proved to do exactly what the Engine functions say. */
module Proxy {
  import opened PathModel
  import opened Engine

  /** The options shared by every wrapper of one trace. The callback and the
      side-effect hook are caller code: the model records each call in `log`. */
  class Options {
    var log: seq<Event>
    const shouldFollow: (Value, string) -> bool
    const hasSideEffect: bool

    constructor (shouldFollow: (Value, string) -> bool, hasSideEffect: bool)
      ensures log == [] && this.shouldFollow == shouldFollow && this.hasSideEffect == hasSideEffect
    {
      log := [];
      this.shouldFollow := shouldFollow;
      this.hasSideEffect := hasSideEffect;
    }

    /** The defaults filled in for a missing `shouldFollow` (follow everything)
        and a missing side-effect hook. */
    constructor Defaults()
      ensures log == [] && !hasSideEffect && forall x, k :: shouldFollow(x, k)
    {
      log := [];
      shouldFollow := (x: Value, k: string) => true;
      hasSideEffect := false;
    }

    method Callback(group: PathGroup, value: Value)
      modifies this
      ensures log == old(log) + [Report(group, value)]
    {
      log := log + [Report(group, value)];
    }

    /** `waitForSideEffect`: awaits the side-effect hook when there is one. */
    method WaitForSideEffect(group: PathGroup, error: Option<Value>)
      modifies this
      ensures log == old(log) + Awaited(hasSideEffect, group, error)
    {
      if hasSideEffect {
        log := log + [SideEffect(group, error)];
      }
    }
  }

  type Handle = Got<Tracer, Trampoline>

  /** The handle `h` is the access `a`: the same raw value, or a wrapper or
      trampoline of the same options whose state is `a`'s. */
  ghost predicate Denotes(h: Handle, a: Access, options: Options)
    reads if h.Wrapped? then {h.wrapper} else {}, if h.Trampolined? then {h.fn} else {}
  {
    match h
    case Raw(v) => a == Raw(v)
    case Wrapped(t) => a.Wrapped? && t.options == options && t.State() == a.wrapper
    case Trampolined(f) => a.Trampolined? && f.options == options && f.State() == a.fn
  }

  ghost predicate SettledDenotes(r: Settled<Handle>, a: Settled<Access>, options: Options)
    reads if !r.Fails? && r.access.Wrapped? then {r.access.wrapper} else {},
          if !r.Fails? && r.access.Trampolined? then {r.access.fn} else {}
  {
    match r
    case Direct(h) => a.Direct? && Denotes(h, a.access, options)
    case Resolves(h) => a.Resolves? && Denotes(h, a.access, options)
    case Fails(e) => a == Fails(e)
  }

  class Tracer {
    const target: Value
    const options: Options
    const paths: PathGroup
    var thenOverHeadCount: nat

    function State(): Wrapper
      reads this
    {
      Wrapper(target, paths, thenOverHeadCount)
    }

    constructor (obj: Value, options: Options, paths: PathGroup, thenOverHeadCount: nat)
      requires |paths| > 0 && (obj.Obj? || obj.Fn?)
      ensures State() == Wrapper(obj, paths, thenOverHeadCount) && this.options == options
    {
      target := obj;
      this.options := options;
      this.paths := paths;
      this.thenOverHeadCount := thenOverHeadCount;
    }

    /** The public entry point with its defaults: one empty path, no `then` to
        let through. A proxy needs an object or a function as its target. */
    constructor Root(obj: Value, options: Options)
      requires obj.Obj? || obj.Fn?
      ensures State() == Wrapper(obj, [[]], 0) && this.options == options
    {
      target := obj;
      this.options := options;
      paths := [[]];
      thenOverHeadCount := 0;
    }

    /** The `get` trap. */
    method Get(key: string) returns (h: Handle)
      requires WrapperOk(State())
      modifies this, options
      ensures var s := GetTrap(old(State()), options.shouldFollow, key);
              State() == s.after && options.log == old(options.log) + s.events && Denotes(h, s.result, options)
      ensures h.Wrapped? ==> fresh(h.wrapper)
      ensures h.Trampolined? ==> fresh(h.fn)
    {
      var reflectedProp := Property(target, key);
      if key == "then" && thenOverHeadCount > 0 {
        thenOverHeadCount := thenOverHeadCount - 1;
        return Raw(reflectedProp);
      }
      if !Has(target, key) || !options.shouldFollow(target, key) {
        h := Stop(key);
      } else {
        h := Extend(key);
      }
    }

    /** The trap when `key` is missing or filtered out: the finished paths, if
        any, are reported with the target, and the raw property comes back. */
    method Stop(key: string) returns (h: Handle)
      requires WrapperOk(State()) && !PassesThen(State(), key) && !Follows(State(), options.shouldFollow, key)
      modifies options
      ensures var s := GetTrap(State(), options.shouldFollow, key);
              options.log == old(options.log) + s.events && h == Raw(Property(target, key)) && s.result.Raw?
    {
      var pathsSoFar := Completed(paths);
      if |pathsSoFar| > 0 {
        options.Callback(pathsSoFar, target);
      }
      return Raw(Property(target, key));
    }

    /** The rest of the trap, once `key` is followed: the read is recorded on a
        copy of the group, and what was read is wrapped, turned into a
        trampoline or reported. */
    method Extend(key: string) returns (h: Handle)
      requires WrapperOk(State()) && !PassesThen(State(), key) && Follows(State(), options.shouldFollow, key)
      modifies options
      ensures var s := GetTrap(State(), options.shouldFollow, key);
              options.log == old(options.log) + s.events && Denotes(h, s.result, options)
      ensures h.Wrapped? ==> fresh(h.wrapper)
      ensures h.Trampolined? ==> fresh(h.fn)
    {
      ghost var s := GetTrap(State(), options.shouldFollow, key);
      var reflectedProp := Property(target, key);
      // the copy of `paths` is implicit: sequences are values
      var workingPaths := paths;
      var newPathEntry := Segment(key, reflectedProp);
      var n := |workingPaths| - 1;
      workingPaths := workingPaths[n := workingPaths[n] + [newPathEntry]];
      assert workingPaths == Recorded(State(), key);
      if IsTraceableObject(reflectedProp) {
        var t := new Tracer(reflectedProp, options, workingPaths, 0);
        assert s.result == Wrapped(t.State()) && s.events == [];
        return Wrapped(t);
      }
      if TypeOf(reflectedProp) == FunctionType {
        var f := new Trampoline(target, key, options, workingPaths);
        assert s.result == Trampolined(f.State()) && s.events == [];
        return Trampolined(f);
      }
      assert s.result == Raw(reflectedProp) && s.events == [Report(workingPaths, reflectedProp)];
      options.Callback(workingPaths, reflectedProp);
      return Raw(reflectedProp);
    }
  }

  class Trampoline {
    const receiver: Value
    const key: string
    const options: Options
    var workingPaths: PathGroup

    function State(): Pending
      reads this
    {
      Pending(receiver, key, workingPaths)
    }

    constructor (receiver: Value, key: string, options: Options, workingPaths: PathGroup)
      requires PendingOk(Pending(receiver, key, workingPaths))
      ensures State() == Pending(receiver, key, workingPaths) && this.options == options
    {
      this.receiver := receiver;
      this.key := key;
      this.options := options;
      this.workingPaths := workingPaths;
    }

    /** `finishFunctionTracing`: drops the trailing empty path and reports. */
    method FinishFunctionTracing(newPaths: PathGroup, functionResult: Value)
      requires |newPaths| > 0
      modifies options
      ensures options.log == old(options.log) + [Report(Completed(newPaths), functionResult)]
    {
      var popped := newPaths[..|newPaths| - 1];
      options.Callback(popped, functionResult);
    }

    /** Calls the trampoline with `args`; the underlying function, applied to
        the receiver and `args`, behaves as `outcome`. */
    method Invoke(args: seq<Value>, outcome: Outcome) returns (r: Settled<Handle>)
      requires PendingOk(State())
      modifies this, options
      ensures var s := Engine.Apply(old(State()), args, outcome, options.hasSideEffect);
              State() == s.after && options.log == old(options.log) + s.events && SettledDenotes(r, s.result, options)
      ensures !r.Fails? && r.access.Wrapped? ==> fresh(r.access.wrapper)
    {
      ghost var s := Engine.Apply(State(), args, outcome, options.hasSideEffect);
      var n := |workingPaths| - 1;
      var last := workingPaths[n];
      last := last[..|last| - 1];
      last := last + [FunctionPart(key, args)];
      workingPaths := workingPaths[n := last];
      assert workingPaths == ReplaceLastPart(old(workingPaths), FunctionPart(key, args));
      assert State() == s.after;
      var newPaths := workingPaths + [[]];
      assert Completed(newPaths) == workingPaths;
      match outcome
      case Sync(fnResult) =>
        if TypeOf(fnResult) != ObjectType || fnResult.Null? {
          assert s.result == Direct(Raw(fnResult)) && s.events == [Report(workingPaths, fnResult)];
          FinishFunctionTracing(newPaths, fnResult);
          return Direct(Raw(fnResult));
        }
        var t := new Tracer(fnResult, options, newPaths, 0);
        assert s.result == Direct(Wrapped(t.State())) && s.events == [];
        return Direct(Wrapped(t));
      case Rejected(error) =>
        assert s.result == Fails(error);
        assert s.events == Awaited(options.hasSideEffect, newPaths, Some(error)) + [Report(workingPaths, error)];
        options.WaitForSideEffect(newPaths, Some(error));
        FinishFunctionTracing(newPaths, error);
        return Fails(error);
      case Fulfilled(result) =>
        if IsTraceableObject(result) {
          options.WaitForSideEffect(newPaths, None);
          var t := new Tracer(result, options, newPaths, 1);
          assert s.result == Resolves(Wrapped(t.State()));
          assert s.events == Awaited(options.hasSideEffect, newPaths, None);
          return Resolves(Wrapped(t));
        }
        assert s.result == Resolves(Raw(result));
        assert s.events == Awaited(options.hasSideEffect, newPaths, None) + [Report(workingPaths, result)];
        options.WaitForSideEffect(newPaths, None);
        FinishFunctionTracing(newPaths, result);
        return Resolves(Raw(result));
    }
  }
}
