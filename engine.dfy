/** The rules of the tracer as pure functions: what one property read on a
    wrapper does (GetTrap, the proxy's `get` trap) and what one call of a
    trampoline does (Apply), each returning the access handed back, the hook
    calls it makes, in order, and the state it leaves behind. */
module Engine {
  import opened PathModel

  datatype Option<+T> = None | Some(value: T)

  /** One call of a hook: the callback with a group and a value, or the
      asynchronous side-effect hook, awaited with the open group (and the
      rejection, if any) before the callback of an asynchronous result. */
  datatype Event =
    | Report(group: PathGroup, value: Value)
    | SideEffect(group: PathGroup, error: Option<Value>)

  /** What the underlying function does when it is called: return a value, or
      return a promise that is (already) fulfilled or rejected. */
  datatype Outcome =
    | Sync(result: Value)
    | Fulfilled(result: Value)
    | Rejected(error: Value)

  /** What a property read hands back: the raw property, the property wrapped
      again, or a trampoline standing for a function. */
  datatype Got<+W, +T> = Raw(value: Value) | Wrapped(wrapper: W) | Trampolined(fn: T)

  /** What a trampoline call hands back: the access itself, a promise resolving
      to it, or a promise rejecting with the error. */
  datatype Settled<+A> = Direct(access: A) | Resolves(access: A) | Fails(error: Value)

  /** The closure state of one proxy: its target, its group and its counter of
      `then` reads to let through. */
  datatype Wrapper = Wrapper(target: Value, paths: PathGroup, thenCount: nat)

  /** The closure state of one trampoline: the object the function was read
      from, the key it was read at, and the group with the function's part last. */
  datatype Pending = Pending(receiver: Value, key: string, working: PathGroup)

  type Access = Got<Wrapper, Pending>

  datatype ReadStep = ReadStep(result: Access, events: seq<Event>, after: Wrapper)
  datatype CallStep = CallStep(result: Settled<Access>, events: seq<Event>, after: Pending)

  /** A group to append to always has a last path. */
  predicate WrapperOk(w: Wrapper)
  {
    |w.paths| > 0
  }

  /** A trampoline's group ends with the function part of its own key. */
  predicate PendingOk(t: Pending)
  {
    |t.working| > 0 &&
    var last := t.working[|t.working| - 1];
    |last| > 0 && last[|last| - 1].FunctionPart? && last[|last| - 1].key == t.key
  }

  predicate AccessOk(a: Access)
  {
    match a
    case Raw(_) => true
    case Wrapped(w) => WrapperOk(w)
    case Trampolined(t) => PendingOk(t)
  }

  /** The plain value an access stands for. */
  function Unwrap(a: Access): Value
  {
    match a
    case Raw(v) => v
    case Wrapped(w) => w.target
    case Trampolined(t) => Property(t.receiver, t.key)
  }

  /** The first rule of the trap: a `then` read while the counter is positive. */
  predicate PassesThen(w: Wrapper, key: string)
  {
    key == "then" && w.thenCount > 0
  }

  /** The key is present and the caller's filter lets it be followed. */
  predicate Follows(w: Wrapper, follow: (Value, string) -> bool, key: string)
  {
    Has(w.target, key) && follow(w.target, key)
  }

  /** The group a followed read records: `paths` copied, with the read's part
      appended to the copy's last path. */
  function Recorded(w: Wrapper, key: string): (g: PathGroup)
    requires WrapperOk(w)
    ensures |g| == |w.paths| && Completed(g) == Completed(w.paths)
    ensures g[|g| - 1] == w.paths[|g| - 1] + [Segment(key, Property(w.target, key))]
  {
    AppendToLast(w.paths, Segment(key, Property(w.target, key)))
  }

  /** The proxy's `get` trap, reading `key` on the wrapper `w`. */
  function GetTrap(w: Wrapper, follow: (Value, string) -> bool, key: string): (s: ReadStep)
    requires WrapperOk(w)
    ensures AccessOk(s.result)
    // the wrapper's own group is never touched; only a `then` pass-through changes its counter
    ensures s.after == if PassesThen(w, key) then w.(thenCount := w.thenCount - 1) else w
    // whatever comes back stands for the raw property
    ensures Unwrap(s.result) == Property(w.target, key)
    // at most one callback, and never a side-effect hook
    ensures |s.events| <= 1 && forall e <- s.events :: e.Report?
    ensures PassesThen(w, key) ==> s.result.Raw? && s.events == []
    ensures !PassesThen(w, key) && !Follows(w, follow, key) ==>
              s.result.Raw? &&
              s.events == if |w.paths| > 1 then [Report(Completed(w.paths), w.target)] else []
    ensures !PassesThen(w, key) && Follows(w, follow, key) ==>
              var v := Property(w.target, key);
              (IsLeaf(v) <==> s.result.Raw?) &&
              (IsLeaf(v) ==> s.events == [Report(Recorded(w, key), v)]) &&
              (IsTraceableObject(v) <==> s.result.Wrapped?) &&
              (IsTraceableObject(v) ==> s.events == [] && s.result.wrapper == Wrapper(v, Recorded(w, key), 0)) &&
              (v.Fn? <==> s.result.Trampolined?) &&
              (v.Fn? ==> s.events == [] && s.result.fn == Pending(w.target, key, Recorded(w, key)))
  {
    var v := Property(w.target, key);
    if PassesThen(w, key) then
      ReadStep(Raw(v), [], w.(thenCount := w.thenCount - 1))
    else if !Follows(w, follow, key) then
      var soFar := Completed(w.paths);
      ReadStep(Raw(v), if |soFar| > 0 then [Report(soFar, w.target)] else [], w)
    else
      var working := Recorded(w, key);
      if IsTraceableObject(v) then
        ReadStep(Wrapped(Wrapper(v, working, 0)), [], w)
      else if TypeOf(v) == FunctionType then
        ReadStep(Trampolined(Pending(w.target, key, working)), [], w)
      else
        ReadStep(Raw(v), [Report(working, v)], w)
  }

  /** The side-effect hook's call, when the hook is configured. */
  function Awaited(sideEffect: bool, g: PathGroup, error: Option<Value>): seq<Event>
  {
    if sideEffect then [SideEffect(g, error)] else []
  }

  /** One call of the trampoline `t` with `args`, where the underlying function
      behaves as `outcome`; `sideEffect` says whether the side-effect hook is configured. */
  function Apply(t: Pending, args: seq<Value>, outcome: Outcome, sideEffect: bool): (s: CallStep)
    requires PendingOk(t)
    ensures PendingOk(s.after) && s.after.receiver == t.receiver && s.after.key == t.key
    // the call frame: the function part gets the arguments, nothing else in the group changes
    ensures |s.after.working| == |t.working| && Completed(s.after.working) == Completed(t.working)
    ensures var n := |t.working| - 1; var m := |t.working[n]|;
              |s.after.working[n]| == m &&
              s.after.working[n][..m - 1] == t.working[n][..m - 1] &&
              s.after.working[n][m - 1] == FunctionPart(t.key, args)
    // every hook call sees the call's group, the side-effect hook with the new empty path still open
    ensures forall e <- s.events ::
              (e.Report? ==> e.group == s.after.working) &&
              (e.SideEffect? ==> e.group == s.after.working + [[]])
    ensures s.result.Direct? <==> outcome.Sync?
    ensures s.result.Fails? <==> outcome.Rejected?
    // what the caller receives stands for what the function produced
    ensures !s.result.Fails? ==> !s.result.access.Trampolined? && Unwrap(s.result.access) == outcome.result
    ensures !s.result.Fails? && s.result.access.Wrapped? ==>
              s.result.access.wrapper.paths == s.after.working + [[]] &&
              s.result.access.wrapper.thenCount == (if outcome.Fulfilled? then 1 else 0) &&
              s.events == Awaited(sideEffect && outcome.Fulfilled?, s.after.working + [[]], None)
    ensures !s.result.Fails? && s.result.access.Raw? ==>
              s.events == Awaited(sideEffect && outcome.Fulfilled?, s.after.working + [[]], None)
                          + [Report(s.after.working, outcome.result)]
    ensures outcome.Sync? ==>
              (s.result.access.Wrapped? <==> TypeOf(outcome.result) == ObjectType && !outcome.result.Null?)
    ensures outcome.Fulfilled? ==> (s.result.access.Wrapped? <==> IsTraceableObject(outcome.result))
    ensures outcome.Rejected? ==>
              s.result.error == outcome.error &&
              s.events == Awaited(sideEffect, s.after.working + [[]], Some(outcome.error))
                          + [Report(s.after.working, outcome.error)]
  {
    var working := ReplaceLastPart(t.working, FunctionPart(t.key, args));
    var open := working + [[]];
    var after := t.(working := working);
    match outcome
    case Sync(r) =>
      if TypeOf(r) != ObjectType || r.Null? then
        CallStep(Direct(Raw(r)), [Report(Completed(open), r)], after)
      else
        CallStep(Direct(Wrapped(Wrapper(r, open, 0))), [], after)
    case Rejected(e) =>
      CallStep(Fails(e), Awaited(sideEffect, open, Some(e)) + [Report(Completed(open), e)], after)
    case Fulfilled(r) =>
      if IsTraceableObject(r) then
        CallStep(Resolves(Wrapped(Wrapper(r, open, 1))), Awaited(sideEffect, open, None), after)
      else
        CallStep(Resolves(Raw(r)), Awaited(sideEffect, open, None) + [Report(Completed(open), r)], after)
  }
}
