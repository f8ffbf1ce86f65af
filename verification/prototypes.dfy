/** Prototype: `ShapeCache` keeps template shapes by id and hands out clones.

    Object identity matters here, so shapes live on an explicit heap: a `Ref`
    is the index of an object in `heap`, allocation appends, and `shapeMap`
    maps each key to the reference of its stored template. */
module Prototypes {
  import opened Wrappers
  import opened JavaStrings

  /** The concrete `Shape` subclasses. */
  datatype ShapeKind = Circle | Rectangle

  /** The fields of a `Shape` object: its runtime class, which fixes the
      `type` field its constructor sets, and its `id`. */
  datatype Shape = Shape(kind: ShapeKind, id: JStr)

  /** `getType()`: the `type` field set by the subclass constructor. */
  function ShapeType(s: Shape): (t: string)
    ensures t == "Circle" <==> s.kind == Circle
    ensures t == "Rectangle" <==> s.kind == Rectangle
  {
    match s.kind
    case Circle => "Circle"
    case Rectangle => "Rectangle"
  }

  type Ref = nat

  /** The objects allocated so far and the static `shapeMap`. */
  datatype Registry = Registry(heap: seq<Shape>, shapeMap: map<string, Ref>)

  /** The registry before `loadCache()`: an empty map. */
  const Empty := Registry([], map[])

  /** Every stored reference points at an allocated object. */
  ghost predicate Valid(r: Registry)
  {
    forall k :: k in r.shapeMap ==> r.shapeMap[k] < |r.heap|
  }

  /** What the map holds, seen by value: key to stored template. */
  function Templates(r: Registry): (t: map<string, Shape>)
    requires Valid(r)
    ensures t.Keys == r.shapeMap.Keys
  {
    map k | k in r.shapeMap :: r.heap[r.shapeMap[k]]
  }

  /** Allocation: a new object at the first unused reference. */
  function Alloc(heap: seq<Shape>, s: Shape): (res: (seq<Shape>, Ref))
    ensures res.1 == |heap| && res.1 < |res.0|
    ensures heap <= res.0 && res.0[res.1] == s
  {
    (heap + [s], |heap|)
  }

  /** `new Circle()` / `new Rectangle()`: a shape of that kind with a `null` id. */
  function NewShape(heap: seq<Shape>, kind: ShapeKind): (res: (seq<Shape>, Ref))
    ensures res.1 == |heap| && |res.0| == |heap| + 1
    ensures heap <= res.0
    ensures res.0[res.1].kind == kind && res.0[res.1].id == Null
  {
    Alloc(heap, Shape(kind, Null))
  }

  /** `setId(id)` on the object at `ref`: only that object's id changes. */
  function SetId(heap: seq<Shape>, ref: Ref, id: JStr): (heap': seq<Shape>)
    requires ref < |heap|
    ensures |heap'| == |heap|
    ensures heap'[ref].id == id && heap'[ref].kind == heap[ref].kind
    ensures forall o :: 0 <= o < |heap| && o != ref ==> heap'[o] == heap[o]
  {
    heap[ref := heap[ref].(id := id)]
  }

  /** `clone()`: a new object of the same class with the same field values. */
  function Clone(heap: seq<Shape>, ref: Ref): (res: (seq<Shape>, Ref))
    requires ref < |heap|
    ensures res.1 == |heap| && res.1 != ref && |res.0| == |heap| + 1
    ensures heap <= res.0
    ensures res.0[res.1] == heap[ref]
  {
    Alloc(heap, heap[ref])
  }

  /** `shapeMap.put(key, ref)`. */
  function Put(r: Registry, key: string, ref: Ref): (r': Registry)
    ensures r'.heap == r.heap
    ensures r'.shapeMap.Keys == r.shapeMap.Keys + {key}
    ensures r'.shapeMap[key] == ref
    ensures forall k :: k in r.shapeMap && k != key ==> r'.shapeMap[k] == r.shapeMap[k]
  {
    r.(shapeMap := r.shapeMap[key := ref])
  }

  /** Creates a shape of `kind`, sets its id to `key` and stores it under
      `key`, as each half of `loadCache()` does. */
  function LoadOne(r: Registry, kind: ShapeKind, key: string): (r': Registry)
    requires Valid(r)
    ensures Valid(r')
    ensures r.heap <= r'.heap
    ensures Templates(r') == Templates(r)[key := Shape(kind, Str(key))]
  {
    var (heap1, ref) := NewShape(r.heap, kind);
    var heap2 := SetId(heap1, ref, Str(key));
    var r' := Put(r.(heap := heap2), key, ref);
    assert r.heap <= heap2 by {
      assert forall o :: 0 <= o < |r.heap| ==> heap2[o] == heap1[o];
    }
    r'
  }

  /** `loadCache()`: stores a Circle with id "1" under "1" and a Rectangle with
      id "2" under "2"; every other entry and every existing object is left as
      it was. */
  function LoadCache(r: Registry): (r': Registry)
    requires Valid(r)
    ensures Valid(r')
    ensures r.heap <= r'.heap
    ensures Templates(r') == Templates(r)["1" := Shape(Circle, Str("1"))]["2" := Shape(Rectangle, Str("2"))]
  {
    var r1 := LoadOne(r, Circle, "1");
    var r2 := LoadOne(r1, Rectangle, "2");
    r2
  }

  /** Loading twice stores the same templates as loading once: only the two
      fixed entries are overwritten, with equal values. */
  lemma LoadCacheIdempotent(r: Registry)
    requires Valid(r)
    ensures Templates(LoadCache(LoadCache(r))) == Templates(LoadCache(r))
  {
    var t := Templates(r);
    var t1 := t["1" := Shape(Circle, Str("1"))]["2" := Shape(Rectangle, Str("2"))];
    assert t1["1" := Shape(Circle, Str("1"))]["2" := Shape(Rectangle, Str("2"))] == t1;
  }

  datatype LookupError = NotFound(key: string)

  /** A successful lookup: the registry afterwards and the returned copy. */
  datatype Fetched = Fetched(registry: Registry, copy: Ref)

  /** `getShape(key)`: a clone of the template stored under `key`. The Java
      code dereferences `null` for a missing key; here that is `NotFound`. */
  function GetShape(r: Registry, key: string): (res: Result<Fetched, LookupError>)
    requires Valid(r)
    ensures key !in Templates(r) <==> res == Failure(NotFound(key))
    ensures res.Success? ==> Valid(res.value.registry)
    ensures res.Success? ==> res.value.registry.shapeMap == r.shapeMap
    ensures res.Success? ==> Templates(res.value.registry) == Templates(r)
    ensures res.Success? ==>
      var Fetched(r', c) := res.value;
      && c !in r.shapeMap.Values
      && |r'.heap| == |r.heap| + 1
      && c == |r.heap|
      && r.heap <= r'.heap
      && r'.heap[c] == Templates(r)[key]
  {
    if key !in r.shapeMap then Failure(NotFound(key))
    else
      var (heap', c) := Clone(r.heap, r.shapeMap[key]);
      var r' := r.(heap := heap');
      assert Templates(r') == Templates(r) by {
        forall k | k in r.shapeMap ensures r'.heap[r.shapeMap[k]] == r.heap[r.shapeMap[k]] {
          assert r'.heap[..|r.heap|][r.shapeMap[k]] == r.heap[r.shapeMap[k]];
        }
      }
      Success(Fetched(r', c))
  }

  /** The returned copy is independent: changing its id afterwards leaves every
      stored template, and every other object, as it was. */
  lemma CopyIsIndependent(r: Registry, key: string, id: JStr)
    requires Valid(r)
    requires GetShape(r, key).Success?
    ensures
      var Fetched(r', c) := GetShape(r, key).value;
      var r'' := r'.(heap := SetId(r'.heap, c, id));
      && Valid(r'')
      && Templates(r'') == Templates(r)
      && r.heap <= r''.heap
  {
  }

  /** Two lookups of the same key return two distinct objects with equal
      fields: value-equal, never identity-equal. */
  lemma TwoLookupsGiveDistinctEqualCopies(r: Registry, key: string)
    requires Valid(r)
    requires key in Templates(r)
    ensures
      var first := GetShape(r, key).value;
      var second := GetShape(first.registry, key).value;
      && first.copy != second.copy
      && second.registry.heap[first.copy] == second.registry.heap[second.copy]
      && ShapeType(second.registry.heap[second.copy]) == ShapeType(Templates(r)[key])
  {
  }

  /** Cloning `n` times in a row, each time from the previous copy. */
  function CloneChain(heap: seq<Shape>, ref: Ref, n: nat): (res: (seq<Shape>, Ref))
    requires ref < |heap|
    ensures res.1 < |res.0|
    decreases n
  {
    if n == 0 then (heap, ref)
    else
      var (heap', c) := Clone(heap, ref);
      CloneChain(heap', c, n - 1)
  }

  /** Cloning preserves the type tag and the id however many successive
      clones are taken. */
  lemma {:induction false} CloneChainPreservesShape(heap: seq<Shape>, ref: Ref, n: nat)
    requires ref < |heap|
    ensures
      var (heap', c) := CloneChain(heap, ref, n);
      heap'[c] == heap[ref] && ShapeType(heap'[c]) == ShapeType(heap[ref])
    decreases n
  {
    if n > 0 {
      var (heap1, c1) := Clone(heap, ref);
      CloneChainPreservesShape(heap1, c1, n - 1);
    }
  }

  /** Sample lookups after `loadCache()` on the initial empty map. */
  lemma LookupExamples()
    ensures
      var r := LoadCache(Empty);
      && GetShape(r, "1").Success?
      && ShapeType(GetShape(r, "1").value.registry.heap[GetShape(r, "1").value.copy]) == "Circle"
      && GetShape(r, "2").Success?
      && ShapeType(GetShape(r, "2").value.registry.heap[GetShape(r, "2").value.copy]) == "Rectangle"
      && GetShape(r, "99") == Failure(NotFound("99"))
  {
  }
}
