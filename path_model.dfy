/** The path data model of the tracer: the runtime type tags, the values a
    traced object graph is made of, one recorded access (a path part), and the
    groups of paths the callback receives. */
module PathModel {

  /** The tags a path part can carry: the results of `typeof`. */
  datatype PathPartType =
    | FunctionType | ObjectType | StringType | NumberType
    | BooleanType | SymbolType | UndefinedType | BigintType

  /** `typeof` of a primitive other than null. */
  type PrimitiveType = t: PathPartType | t != FunctionType && t != ObjectType witness StringType

  /** The tag of a part that is not a function call. */
  type BaseType = t: PathPartType | t != FunctionType witness ObjectType

  /** A value of the traced object graph, classified once instead of by `typeof`.
      `lit` is an opaque rendering of a primitive (it gives it identity);
      `isBuffer` stands for `Buffer.isBuffer`; a function is an opaque name
      (what it does when called is supplied at call time). */
  datatype Value =
    | Prim(kind: PrimitiveType, lit: string)
    | Null
    | Obj(fields: map<string, Value>, isBuffer: bool)
    | Fn(name: string)

  /** What reading a missing property yields. */
  const Undefined: Value := Prim(UndefinedType, "undefined")

  /** One recorded access: a plain property read, or a function read whose
      arguments are filled in when it is called. */
  datatype PathPart =
    | BasePart(key: string, kind: BaseType)
    | FunctionPart(key: string, callArgs: seq<Value>)

  type Path = seq<PathPart>

  /** One path per hop across a call boundary; the last one is still open. */
  type PathGroup = seq<Path>

  /** `typeof v`; note that `typeof null` is "object". */
  function TypeOf(v: Value): (t: PathPartType)
    ensures t == FunctionType <==> v.Fn?
    ensures t == ObjectType <==> (v.Obj? || v.Null?)
    ensures v.Prim? ==> t == v.kind
  {
    match v
    case Prim(k, _) => k
    case Null => ObjectType
    case Obj(_, _) => ObjectType
    case Fn(_) => FunctionType
  }

  /** The tag recorded for a part. */
  function KindOf(p: PathPart): PathPartType
  {
    match p
    case BasePart(_, k) => k
    case FunctionPart(_, _) => FunctionType
  }

  /** `key in target`, with the target's own fields standing for the prototype chain. */
  predicate Has(target: Value, key: string)
  {
    target.Obj? && key in target.fields
  }

  /** `Reflect.get(target, key)`. */
  function Property(target: Value, key: string): (v: Value)
    ensures Has(target, key) ==> v == target.fields[key]
    ensures !Has(target, key) ==> v == Undefined
  {
    if Has(target, key) then target.fields[key] else Undefined
  }

  /** `isDataObject`: a buffer, or anything whose `byteLength` is a number.
      The source only asks this of non-null objects; everything else is not data. */
  predicate IsDataObject(v: Value)
  {
    v.Obj? &&
    (v.isBuffer || ("byteLength" in v.fields && TypeOf(v.fields["byteLength"]) == NumberType))
  }

  /** A data object is reported as itself when read: it is a leaf, and the
      part recorded for it is a plain read tagged "object". */
  lemma DataObjectIsLeaf(key: string, v: Value)
    requires IsDataObject(v)
    ensures TypeOf(v) == ObjectType && !IsTraceableObject(v) && IsLeaf(v)
    ensures Segment(key, v) == BasePart(key, ObjectType)
  {
  }

  /** A value the tracer re-wraps: `typeof` is "object", it is truthy (not null)
      and it is not a data object. */
  predicate IsTraceableObject(v: Value)
  {
    TypeOf(v) == ObjectType && !v.Null? && !IsDataObject(v)
  }

  /** A value whose read ends the trace there: anything that is neither a
      traceable object nor a function (falsy values, primitives, data objects). */
  predicate IsLeaf(v: Value)
  {
    !IsTraceableObject(v) && TypeOf(v) != FunctionType
  }

  /** The part recorded when `key` is read and yields `v`. */
  function Segment(key: string, v: Value): (p: PathPart)
    ensures p.key == key
    ensures p.FunctionPart? <==> v.Fn?
    ensures p.FunctionPart? ==> p.callArgs == []
    ensures KindOf(p) == TypeOf(v)
  {
    if TypeOf(v) == FunctionType then FunctionPart(key, []) else BasePart(key, TypeOf(v))
  }

  /** `paths.slice(0, -1)`: the group without its open last path. */
  function Completed(g: PathGroup): (r: PathGroup)
    ensures |g| > 0 ==> |r| == |g| - 1 && forall i :: 0 <= i < |r| ==> r[i] == g[i]
    ensures |g| == 0 ==> r == []
  {
    if |g| == 0 then [] else g[..|g| - 1]
  }

  /** The group `g` with `p` appended to its last path, leaving `g` itself as it was. */
  function AppendToLast(g: PathGroup, p: PathPart): (r: PathGroup)
    requires |g| > 0
    ensures |r| == |g| && Completed(r) == Completed(g)
    ensures r[|g| - 1] == g[|g| - 1] + [p]
  {
    g[|g| - 1 := g[|g| - 1] + [p]]
  }

  /** The group `g` whose last path has its final part popped and `p` pushed. */
  function ReplaceLastPart(g: PathGroup, p: PathPart): (r: PathGroup)
    requires |g| > 0 && |g[|g| - 1]| > 0
    ensures |r| == |g| && Completed(r) == Completed(g)
    ensures |r[|g| - 1]| == |g[|g| - 1]|
    ensures r[|g| - 1] == g[|g| - 1][..|g[|g| - 1]| - 1] + [p]
  {
    var last := g[|g| - 1];
    g[|g| - 1 := last[..|last| - 1] + [p]]
  }

  /** `g` begins with the paths of `prefix`, each exactly. */
  predicate StartsWith(g: PathGroup, prefix: PathGroup)
  {
    |prefix| <= |g| && g[..|prefix|] == prefix
  }

  lemma {:induction false} StartsWithTransitive(a: PathGroup, b: PathGroup, c: PathGroup)
    requires StartsWith(a, b) && StartsWith(b, c)
    ensures StartsWith(a, c)
  {
    assert a[..|c|] == a[..|b|][..|c|];
  }
}
