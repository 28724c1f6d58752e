/** Chains of accesses: a caller reads and calls through a wrapper, each
    action on what the previous one produced. The lemmas here relate the groups
    the hooks receive along such a chain to the group the chain started from. */
module Chains {
  import opened PathModel
  import opened Engine

  /** One thing a caller does to what it holds: read a property, or call it
      (the underlying function then behaves as `outcome`). */
  datatype Action = Read(key: string) | Call(args: seq<Value>, outcome: Outcome)

  /** The hook calls a chain makes, in order, and what its last action handed back. */
  datatype Trace = Trace(events: seq<Event>, last: Settled<Access>)

  predicate SettledOk(cur: Settled<Access>)
  {
    cur.Fails? || AccessOk(cur.access)
  }

  /** The action can reach the tracer: a read through a wrapper, or a call of
      a trampoline. */
  predicate Applies(cur: Settled<Access>, act: Action)
  {
    !cur.Fails? &&
    ((act.Read? && cur.access.Wrapped?) || (act.Call? && cur.access.Trampolined?))
  }

  datatype StepResult = StepResult(events: seq<Event>, next: Settled<Access>)

  /** One action on what the caller holds. */
  function Step(cur: Settled<Access>, follow: (Value, string) -> bool, sideEffect: bool, act: Action): (r: StepResult)
    requires SettledOk(cur) && Applies(cur, act)
    ensures SettledOk(r.next)
  {
    if act.Read? then
      var s := GetTrap(cur.access.wrapper, follow, act.key);
      StepResult(s.events, Direct(s.result))
    else
      var s := Apply(cur.access.fn, act.args, act.outcome, sideEffect);
      StepResult(s.events, s.result)
  }

  /** Performs `acts` in order starting from `cur`. A rejection ends the chain;
      so does an action on something the tracer no longer intercepts (a read
      through a raw value or a trampoline, a call of anything but a
      trampoline), since nothing after it can reach a hook. */
  function Run(cur: Settled<Access>, follow: (Value, string) -> bool, sideEffect: bool, acts: seq<Action>): Trace
    requires SettledOk(cur)
    decreases |acts|
  {
    if acts == [] || !Applies(cur, acts[0]) then Trace([], cur)
    else
      var st := Step(cur, follow, sideEffect, acts[0]);
      var rest := Run(st.next, follow, sideEffect, acts[1..]);
      Trace(st.events + rest.events, rest.last)
  }

  /** The finished part of the group an access carries: every hook call made
      from it onwards begins with these paths. */
  function Base(cur: Settled<Access>): PathGroup
  {
    if cur.Fails? then []
    else match cur.access
      case Raw(_) => []
      case Wrapped(w) => Completed(w.paths)
      case Trampolined(t) => Completed(t.working)
  }

  lemma StartsWithCompleted(g: PathGroup)
    ensures StartsWith(g, Completed(g))
  {
  }

  lemma StartsWithExtension(g: PathGroup, more: PathGroup)
    ensures StartsWith(g + more, g)
  {
    assert (g + more)[..|g|] == g;
  }

  /** One read: its report, if any, begins with the wrapper's finished paths,
      and what it hands back is raw or carries those same finished paths. */
  lemma ReadKeepsBase(w: Wrapper, follow: (Value, string) -> bool, k: string)
    requires WrapperOk(w)
    ensures var s := GetTrap(w, follow, k);
            (forall e <- s.events :: StartsWith(e.group, Completed(w.paths))) &&
            (s.result.Raw? || Base(Direct(s.result)) == Completed(w.paths))
  {
    var s := GetTrap(w, follow, k);
    var c := Completed(w.paths);
    if PassesThen(w, k) {
      assert s.events == [];
    } else if !Follows(w, follow, k) {
      assert c[..|c|] == c;
    } else {
      var g := Recorded(w, k);
      StartsWithCompleted(g);
      assert Completed(g) == c;
      assert forall e <- s.events :: e.group == g;
    }
  }

  /** One call: every hook call it makes begins with the call's group, which
      begins with the trampoline's finished paths, and what it hands back is
      raw, failed, or carries the call's group as finished paths. */
  lemma CallKeepsBase(t: Pending, args: seq<Value>, o: Outcome, sideEffect: bool)
    requires PendingOk(t)
    ensures var s := Apply(t, args, o, sideEffect);
            (forall e <- s.events :: StartsWith(e.group, s.after.working)) &&
            StartsWith(s.after.working, Completed(t.working)) &&
            (s.result.Fails? || s.result.access.Raw? || Base(s.result) == s.after.working)
  {
    var s := Apply(t, args, o, sideEffect);
    var g := s.after.working;
    StartsWithCompleted(g);
    StartsWithExtension(g, [[]]);
  }

  /** One step: every hook call it makes begins with the finished paths of
      what it started from, and what it hands back is raw, failed, or carries
      finished paths that begin with them too. */
  lemma StepKeepsBase(cur: Settled<Access>, follow: (Value, string) -> bool, sideEffect: bool, act: Action)
    requires SettledOk(cur) && Applies(cur, act)
    ensures var st := Step(cur, follow, sideEffect, act);
            (forall e <- st.events :: StartsWith(e.group, Base(cur))) &&
            (st.next.Fails? || st.next.access.Raw? || StartsWith(Base(st.next), Base(cur)))
  {
    var st := Step(cur, follow, sideEffect, act);
    if act.Read? {
      ReadKeepsBase(cur.access.wrapper, follow, act.key);
      assert Base(cur)[..|Base(cur)|] == Base(cur);
    } else {
      var t := cur.access.fn;
      var g := Apply(t, act.args, act.outcome, sideEffect).after.working;
      CallKeepsBase(t, act.args, act.outcome, sideEffect);
      forall e <- st.events ensures StartsWith(e.group, Base(cur)) {
        StartsWithTransitive(e.group, g, Base(cur));
      }
    }
  }

  /** Nothing is intercepted through a raw value or after a rejection. */
  lemma SilentAfterRawOrFailure(cur: Settled<Access>, follow: (Value, string) -> bool, sideEffect: bool, acts: seq<Action>)
    requires cur.Fails? || cur.access.Raw?
    ensures Run(cur, follow, sideEffect, acts).events == []
  {
  }

  /** Prefix relation: every group a hook receives along a chain begins with
      the finished paths of the group the chain started from. */
  lemma {:induction false} RunExtendsBase(cur: Settled<Access>, follow: (Value, string) -> bool, sideEffect: bool, acts: seq<Action>)
    requires SettledOk(cur)
    ensures forall e <- Run(cur, follow, sideEffect, acts).events :: StartsWith(e.group, Base(cur))
    decreases |acts|
  {
    if acts != [] && Applies(cur, acts[0]) {
      var st := Step(cur, follow, sideEffect, acts[0]);
      StepKeepsBase(cur, follow, sideEffect, acts[0]);
      var rest := Run(st.next, follow, sideEffect, acts[1..]);
      assert Run(cur, follow, sideEffect, acts).events == st.events + rest.events;
      if st.next.Fails? || st.next.access.Raw? {
        SilentAfterRawOrFailure(st.next, follow, sideEffect, acts[1..]);
      } else {
        RunExtendsBase(st.next, follow, sideEffect, acts[1..]);
        forall e <- rest.events ensures StartsWith(e.group, Base(cur)) {
          StartsWithTransitive(e.group, Base(st.next), Base(cur));
        }
      }
    }
  }

  /** After a call, the call's own report and every report made later through
      what the call returned carry the call's group first, exactly as the call
      recorded it (the function part with its arguments). */
  lemma CallGroupPrefixesLaterGroups(t: Pending, args: seq<Value>, outcome: Outcome,
                                     follow: (Value, string) -> bool, sideEffect: bool, acts: seq<Action>)
    requires PendingOk(t)
    ensures var g := Apply(t, args, outcome, sideEffect).after.working;
            forall e <- Run(Direct(Trampolined(t)), follow, sideEffect, [Call(args, outcome)] + acts).events ::
              StartsWith(e.group, g)
  {
    var s := Apply(t, args, outcome, sideEffect);
    var cur: Settled<Access> := Direct(Trampolined(t));
    var all := [Call(args, outcome)] + acts;
    assert all[0] == Call(args, outcome) && all[1..] == acts;
    assert Step(cur, follow, sideEffect, all[0]) == StepResult(s.events, s.result);
    CallKeepsBase(t, args, outcome, sideEffect);
    var rest := Run(s.result, follow, sideEffect, acts);
    assert Run(cur, follow, sideEffect, all).events == s.events + rest.events;
    if s.result.Fails? || s.result.access.Raw? {
      SilentAfterRawOrFailure(s.result, follow, sideEffect, acts);
    } else {
      RunExtendsBase(s.result, follow, sideEffect, acts);
    }
  }

  /** No part of `g` records a read of `key`. */
  predicate KeyAbsent(g: PathGroup, key: string)
  {
    forall i, j :: 0 <= i < |g| && 0 <= j < |g[i]| ==> g[i][j].key != key
  }

  lemma KeyAbsentCompleted(g: PathGroup, key: string)
    requires KeyAbsent(g, key)
    ensures KeyAbsent(Completed(g), key)
  {
    forall i, j | 0 <= i < |Completed(g)| && 0 <= j < |Completed(g)[i]|
      ensures Completed(g)[i][j].key != key
    {
      assert Completed(g)[i] == g[i];
    }
  }

  lemma KeyAbsentOpen(g: PathGroup, key: string)
    requires KeyAbsent(g, key)
    ensures KeyAbsent(g + [[]], key)
  {
    forall i, j | 0 <= i < |g + [[]]| && 0 <= j < |(g + [[]])[i]|
      ensures (g + [[]])[i][j].key != key
    {
      assert i < |g| && (g + [[]])[i] == g[i];
    }
  }

  /** Replacing or appending the final part of the last path by a part of
      another key keeps `key` out of the group. */
  lemma KeyAbsentNewLast(g: PathGroup, r: PathGroup, m: nat, p: PathPart, key: string)
    requires KeyAbsent(g, key) && p.key != key && |g| > 0
    requires |r| == |g| && Completed(r) == Completed(g)
    requires m <= |g[|g| - 1]| && r[|g| - 1] == g[|g| - 1][..m] + [p]
    ensures KeyAbsent(r, key)
  {
    var n := |g| - 1;
    forall i, j | 0 <= i < |r| && 0 <= j < |r[i]|
      ensures r[i][j].key != key
    {
      if i < n {
        assert r[i] == Completed(r)[i] == Completed(g)[i] == g[i];
      } else if j < m {
        assert r[i][j] == g[n][j];
      }
    }
  }

  /** The group an access carries. */
  function GroupOf(cur: Settled<Access>): PathGroup
  {
    if cur.Fails? then []
    else match cur.access
      case Raw(_) => []
      case Wrapped(w) => w.paths
      case Trampolined(t) => t.working
  }

  /** One read keeps a refused key out of every group it reports or hands on. */
  lemma ReadKeepsKeyAbsent(w: Wrapper, follow: (Value, string) -> bool, k: string, key: string)
    requires WrapperOk(w) && KeyAbsent(w.paths, key)
    requires forall x :: !follow(x, key)
    ensures var s := GetTrap(w, follow, k);
            (forall e <- s.events :: KeyAbsent(e.group, key)) && KeyAbsent(GroupOf(Direct(s.result)), key)
  {
    KeyAbsentCompleted(w.paths, key);
    if !PassesThen(w, k) && Follows(w, follow, k) {
      assert k != key;
      var p := Segment(k, Property(w.target, k));
      var n := |w.paths| - 1;
      assert Recorded(w, k)[n] == w.paths[n][..|w.paths[n]|] + [p];
      KeyAbsentNewLast(w.paths, Recorded(w, k), |w.paths[n]|, p, key);
    }
  }

  /** One call keeps a key absent from the trampoline's group out of every
      group it reports or hands on: the part it rewrites is the function's own. */
  lemma CallKeepsKeyAbsent(t: Pending, args: seq<Value>, o: Outcome, sideEffect: bool, key: string)
    requires PendingOk(t) && KeyAbsent(t.working, key)
    ensures var s := Apply(t, args, o, sideEffect);
            (forall e <- s.events :: KeyAbsent(e.group, key)) && KeyAbsent(GroupOf(s.result), key)
  {
    var s := Apply(t, args, o, sideEffect);
    var n := |t.working| - 1;
    var m := |t.working[n]| - 1;
    assert t.working[n][m].key == t.key;
    var p := FunctionPart(t.key, args);
    assert s.after.working[n] == t.working[n][..m] + [p];
    KeyAbsentNewLast(t.working, s.after.working, m, p, key);
    KeyAbsentOpen(s.after.working, key);
  }

  lemma StepKeepsKeyAbsent(cur: Settled<Access>, follow: (Value, string) -> bool, sideEffect: bool, act: Action, key: string)
    requires SettledOk(cur) && Applies(cur, act) && KeyAbsent(GroupOf(cur), key)
    requires forall x :: !follow(x, key)
    ensures var st := Step(cur, follow, sideEffect, act);
            (forall e <- st.events :: KeyAbsent(e.group, key)) && KeyAbsent(GroupOf(st.next), key)
  {
    if act.Read? {
      ReadKeepsKeyAbsent(cur.access.wrapper, follow, act.key, key);
    } else {
      CallKeepsKeyAbsent(cur.access.fn, act.args, act.outcome, sideEffect, key);
    }
  }

  /** A key the filter always refuses never reaches a hook: reads of it return
      the raw property and record nothing, so no reported group mentions it. */
  lemma {:induction false} RefusedKeyNeverReported(cur: Settled<Access>, follow: (Value, string) -> bool, sideEffect: bool,
                                                   acts: seq<Action>, key: string)
    requires SettledOk(cur)
    requires forall x :: !follow(x, key)
    requires KeyAbsent(GroupOf(cur), key)
    ensures forall e <- Run(cur, follow, sideEffect, acts).events :: KeyAbsent(e.group, key)
    decreases |acts|
  {
    if acts != [] && Applies(cur, acts[0]) {
      var st := Step(cur, follow, sideEffect, acts[0]);
      StepKeepsKeyAbsent(cur, follow, sideEffect, acts[0], key);
      RefusedKeyNeverReported(st.next, follow, sideEffect, acts[1..], key);
      var rest := Run(st.next, follow, sideEffect, acts[1..]);
      assert Run(cur, follow, sideEffect, acts).events == st.events + rest.events;
    }
  }

  /** `keys` can be read one after the other from `target`: each is present and
      followed, each but the last yields a traceable object, the last a leaf. */
  predicate LeadsToLeaf(target: Value, follow: (Value, string) -> bool, keys: seq<string>)
    decreases |keys|
  {
    |keys| > 0 && Has(target, keys[0]) && follow(target, keys[0]) &&
    var v := Property(target, keys[0]);
    if |keys| == 1 then IsLeaf(v) else IsTraceableObject(v) && LeadsToLeaf(v, follow, keys[1..])
  }

  /** The value reached by reading `keys` one after the other. */
  function Lookup(target: Value, keys: seq<string>): Value
    decreases |keys|
  {
    if keys == [] then target else Lookup(Property(target, keys[0]), keys[1..])
  }

  /** The parts recorded by reading `keys` one after the other. */
  function SegmentsAlong(target: Value, keys: seq<string>): seq<PathPart>
    decreases |keys|
  {
    if keys == [] then []
    else [Segment(keys[0], Property(target, keys[0]))] + SegmentsAlong(Property(target, keys[0]), keys[1..])
  }

  function Reads(keys: seq<string>): (acts: seq<Action>)
    ensures |acts| == |keys| && forall i :: 0 <= i < |keys| ==> acts[i] == Read(keys[i])
  {
    if keys == [] then [] else [Read(keys[0])] + Reads(keys[1..])
  }

  /** Reading a leaf ends a chain with one report of the recorded group. */
  lemma RunReadOfLeaf(w: Wrapper, follow: (Value, string) -> bool, sideEffect: bool, k: string)
    requires WrapperOk(w) && !PassesThen(w, k) && Follows(w, follow, k) && IsLeaf(Property(w.target, k))
    ensures var v := Property(w.target, k);
            Run(Direct(Wrapped(w)), follow, sideEffect, [Read(k)]) == Trace([Report(Recorded(w, k), v)], Direct(Raw(v)))
  {
    var v := Property(w.target, k);
    var cur: Settled<Access> := Direct(Wrapped(w));
    assert GetTrap(w, follow, k) == ReadStep(Raw(v), [Report(Recorded(w, k), v)], w);
    var st := Step(cur, follow, sideEffect, Read(k));
    assert [Read(k)][1..] == [];
    assert Run(cur, follow, sideEffect, [Read(k)]) == Trace(st.events + [], Direct(Raw(v)));
  }

  /** Reading a traceable object continues the chain on its wrapper, silently. */
  lemma RunReadOfObject(w: Wrapper, follow: (Value, string) -> bool, sideEffect: bool, k: string, acts: seq<Action>)
    requires WrapperOk(w) && !PassesThen(w, k) && Follows(w, follow, k) && IsTraceableObject(Property(w.target, k))
    ensures Run(Direct(Wrapped(w)), follow, sideEffect, [Read(k)] + acts) ==
            Run(Direct(Wrapped(Wrapper(Property(w.target, k), Recorded(w, k), 0))), follow, sideEffect, acts)
  {
    var cur: Settled<Access> := Direct(Wrapped(w));
    var next: Settled<Access> := Direct(Wrapped(Wrapper(Property(w.target, k), Recorded(w, k), 0)));
    assert GetTrap(w, follow, k) == ReadStep(next.access, [], w);
    assert ([Read(k)] + acts)[0] == Read(k) && ([Read(k)] + acts)[1..] == acts;
    assert Step(cur, follow, sideEffect, Read(k)) == StepResult([], next);
    assert Run(cur, follow, sideEffect, [Read(k)] + acts).events == [] + Run(next, follow, sideEffect, acts).events;
  }

  /** The trace a chain of reads ending at a leaf produces: one report of the
      starting group whose last path is extended by the parts read, with the
      leaf, and the leaf handed back raw. */
  ghost predicate ReportsLeafOnce(w: Wrapper, follow: (Value, string) -> bool, sideEffect: bool, keys: seq<string>)
    requires WrapperOk(w)
  {
    var n := |w.paths| - 1;
    Run(Direct(Wrapped(w)), follow, sideEffect, Reads(keys)) ==
    Trace([Report(Completed(w.paths) + [w.paths[n] + SegmentsAlong(w.target, keys)], Lookup(w.target, keys))],
          Direct(Raw(Lookup(w.target, keys))))
  }

  /** A group `r` that is `g` with `seg` appended to its last path, seen from
      either end: extending `r`'s last path by `rest` is extending `g`'s by
      `seg` and then `rest`. */
  lemma ExtendLast(g: PathGroup, r: PathGroup, seg: PathPart, rest: seq<PathPart>)
    requires |g| > 0 && |r| == |g| && Completed(r) == Completed(g) && r[|g| - 1] == g[|g| - 1] + [seg]
    ensures Completed(r) + [r[|g| - 1] + rest] == Completed(g) + [g[|g| - 1] + ([seg] + rest)]
    ensures r == Completed(g) + [g[|g| - 1] + [seg]]
  {
    var n := |g| - 1;
    assert r[n] + rest == g[n] + ([seg] + rest);
    assert forall i :: 0 <= i < |r| ==> r[i] == (Completed(g) + [g[n] + [seg]])[i];
  }

  /** The chain of one key. */
  lemma LeafChainOfOne(w: Wrapper, follow: (Value, string) -> bool, sideEffect: bool, keys: seq<string>)
    requires WrapperOk(w) && LeadsToLeaf(w.target, follow, keys) && !PassesThen(w, keys[0]) && |keys| == 1
    ensures ReportsLeafOnce(w, follow, sideEffect, keys)
  {
    var k := keys[0];
    var v := Property(w.target, k);
    assert keys == [k] && keys[1..] == [];
    assert Reads(keys) == [Read(k)] + Reads([]);
    assert Reads(keys) == [Read(k)];
    assert Lookup(w.target, keys) == Lookup(v, []) == v;
    assert SegmentsAlong(w.target, keys) == [Segment(k, v)] + SegmentsAlong(v, []) == [Segment(k, v)];
    ExtendLast(w.paths, Recorded(w, k), Segment(k, v), []);
    RunReadOfLeaf(w, follow, sideEffect, k);
  }

  /** A chain of several keys is its first read followed by the chain of the
      rest on the wrapper that read hands back. */
  lemma LeafChainOfMore(w: Wrapper, follow: (Value, string) -> bool, sideEffect: bool, keys: seq<string>)
    requires WrapperOk(w) && LeadsToLeaf(w.target, follow, keys) && !PassesThen(w, keys[0]) && |keys| > 1
    requires ReportsLeafOnce(Wrapper(Property(w.target, keys[0]), Recorded(w, keys[0]), 0), follow, sideEffect, keys[1..])
    ensures ReportsLeafOnce(w, follow, sideEffect, keys)
  {
    var k := keys[0];
    var v := Property(w.target, k);
    assert Reads(keys) == [Read(k)] + Reads(keys[1..]);
    RunReadOfObject(w, follow, sideEffect, k, Reads(keys[1..]));
    assert SegmentsAlong(w.target, keys) == [Segment(k, v)] + SegmentsAlong(v, keys[1..]);
    assert Lookup(w.target, keys) == Lookup(v, keys[1..]);
    ExtendLast(w.paths, Recorded(w, k), Segment(k, v), SegmentsAlong(v, keys[1..]));
  }

  /** Leaf read through nested objects: reading a chain of keys that ends at a
      leaf calls the callback exactly once, with the starting group whose last
      path is extended by one part per key read, and hands back the leaf value
      itself, unwrapped. */
  lemma {:induction false} LeafChainReportsOnce(w: Wrapper, follow: (Value, string) -> bool, sideEffect: bool, keys: seq<string>)
    requires WrapperOk(w) && LeadsToLeaf(w.target, follow, keys) && !PassesThen(w, keys[0])
    ensures var n := |w.paths| - 1;
            Run(Direct(Wrapped(w)), follow, sideEffect, Reads(keys)) ==
            Trace([Report(Completed(w.paths) + [w.paths[n] + SegmentsAlong(w.target, keys)], Lookup(w.target, keys))],
                  Direct(Raw(Lookup(w.target, keys))))
    decreases |keys|
  {
    if |keys| == 1 {
      LeafChainOfOne(w, follow, sideEffect, keys);
    } else {
      var v := Property(w.target, keys[0]);
      LeafChainReportsOnce(Wrapper(v, Recorded(w, keys[0]), 0), follow, sideEffect, keys[1..]);
      LeafChainOfMore(w, follow, sideEffect, keys);
    }
  }
}
