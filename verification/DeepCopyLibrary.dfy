/**
 The generated deep-copy functions (api/v1alpha1/zz_generated.deepcopy.go) over GoMemory's heap.

 For a struct type T, TRep(x, v, region, tree) says that x has the abstract value v (nil kept apart from
 empty) and reaches only objects of the region, and, if tree is set, reaches none of them twice.  A tree
 is a graph too, which is how the definition is put: the quantifier keeps TBody folded where TBody is not
 mentioned.  TPtrRep says the same of a possibly nil pointer, with its `below` as the region, and
 TSliceRep of a slice.

 TCopy is the body of T's DeepCopyInto with the struct that `out` points to as its result: a shallow copy
 whose pointer, slice and map fields are then replaced one by one.  Every source may share whole objects at will;
 every copy is a tree of new objects.
 */
module DeepCopyLibrary {
  import opened Wrappers
  import opened GoMemory

  // A struct of a library (RoleGroupConfigSpec, RoleConfigSpec, OverridesSpec, OidcSpec, RawExtension and
  // the metadata structs): plain fields and memory of its own, here one buffer.
  datatype Lib = Lib(scalars: string, buffer: array?<int>)
  datatype LibValue = LibValue(scalars: string, buffer: Option<seq<int>>)

  ghost predicate LibRep(x: Lib, v: LibValue, region: set<object>, tree: bool)
    reads region
  {
    forall t: bool :: (t ==> tree) ==> LibBody(x, v, region, t)
  }

  ghost predicate LibBody(x: Lib, v: LibValue, region: set<object>, tree: bool)
    reads region
  {
    && Ref(x.buffer) <= region
    && x.scalars == v.scalars
    && match v.buffer
       case None => x.buffer == null
       case Some(s) => x.buffer != null && x.buffer[..] == s
  }

  /** The contract of the libraries' own DeepCopyInto functions. */
  method LibCopy(x: Lib, ghost v: LibValue, ghost within: set<object>) returns (y: Lib, ghost region: set<object>)
    requires LibRep(x, v, within, false)
    ensures fresh(region) && LibRep(y, v, region, true) && region == Ref(y.buffer)
  {
    assert LibBody(x, v, within, false);
    y := x;
    if x.buffer != null {
      var buffer := new int[x.buffer.Length](i requires 0 <= i < x.buffer.Length reads x.buffer => x.buffer[i]);
      y := y.(buffer := buffer);
      assert buffer[..] == x.buffer[..];
    }
    region := Ref(y.buffer);
  }

  ghost predicate LibPtrRep(p: Ptr?<Lib>, v: Option<LibValue>, tree: bool)
    reads PtrCell(p)
  {
    (p == null <==> v.None?) && forall t: bool :: (t ==> tree) ==> LibPtrBody(p, v, t)
  }

  ghost predicate LibPtrBody(p: Ptr?<Lib>, v: Option<LibValue>, tree: bool)
    reads PtrCell(p)
  {
    p != null && v.Some? ==> (tree ==> p !in p.below) && LibRep(p.v, v.value, p.below, tree)
  }

  method LibDeepCopyInto(src: Ptr<Lib>, out: Ptr<Lib>, ghost v: Option<LibValue>)
    requires LibPtrRep(src, v, false) && out !in PtrCell(src)
    modifies out
    ensures LibPtrRep(out, v, true) && fresh(out.below)
  {
    assert LibPtrBody(src, v, false);
    var y, region := LibCopy(src.v, v.value, src.below);
    out.v, out.below := y, region;
  }

  method LibDeepCopy(src: Ptr?<Lib>, ghost v: Option<LibValue>, ghost used: set<object>) returns (out: Ptr?<Lib>)
    requires LibPtrRep(src, v, false)
    ensures LibPtrRep(out, v, true) && fresh(PtrCell(out)) && PtrCell(out) !! used
  {
    if src == null {
      return null;
    }
    assert LibPtrBody(src, v, false);
    out := new Ptr<Lib>();
    assert LibPtrBody(src, v, false);
    LibDeepCopyInto(src, out, v);
  }

  ghost predicate RawElements(a: seq<Lib>, v: seq<LibValue>, parts: seq<set<object>>, within: set<object>, tree: bool)
    reads within
  {
    && |a| == |v| == |parts|
    && (tree ==> DisjointElements(parts))
    && (forall i :: 0 <= i < |a| ==> parts[i] <= within && LibRep(a[i], v[i], parts[i], tree))
  }

  ghost predicate RawSliceRep(s: Slice?<Lib>, v: Option<seq<LibValue>>, tree: bool)
    reads SliceCell(s)
  {
    (s == null <==> v.None?) && forall t: bool :: (t ==> tree) ==> RawSliceBody(s, v, t)
  }

  ghost predicate RawSliceBody(s: Slice?<Lib>, v: Option<seq<LibValue>>, tree: bool)
    reads SliceCell(s)
  {
    s != null && v.Some? ==>
      && (tree ==> s !in s.below && s.a !in s.below)
      && RawElements(s.a[..], v.value, s.parts, s.below, tree)
  }

  method RawSliceCopy(
      src: Slice?<Lib>, ghost v: Option<seq<LibValue>>, ghost used: set<object>)
    returns (out: Slice?<Lib>)
    requires RawSliceRep(src, v, false)
    ensures RawSliceRep(out, v, true) && fresh(SliceCell(out)) && SliceCell(out) !! used
  {
    if src == null {
      return null;
    }
    assert RawSliceBody(src, v, false);
    var a := new Lib[src.a.Length];
    ghost var copies: seq<Lib>, regions: seq<set<object>> := [], [];
    for i := 0 to src.a.Length
      invariant |copies| == |regions| == i && a[..i] == copies
      invariant forall j :: 0 <= j < i ==> fresh(regions[j]) && a !in regions[j]
      invariant forall j :: 0 <= j < i ==> LibRep(copies[j], v.value[j], regions[j], true)
      invariant DisjointElements(regions)
    {
      assert LibRep(src.a[..][i], v.value[i], src.parts[i], false);
      var y, region := LibCopy(src.a[i], v.value[i], src.parts[i]);
      a[i] := y;
      copies, regions := copies + [y], regions + [region];
    }
    out := new Slice<Lib>(a, regions);
    assert a[..] == copies;
  }

  /** The in-line copy of a pointer to a struct or number without pointers. */
  method FlatCopy<T(0)>(src: Ptr?<T>, ghost used: set<object>) returns (out: Ptr?<T>)
    ensures fresh(PtrCell(out)) && PtrCell(out) !! used && FlatValue(out) == FlatValue(src)
  {
    if src == null {
      return null;
    }
    out := new Ptr<T>();
    out.v := src.v;
  }

  /** The in-line loop over a map of strings. */
  method FlatMapCopy(src: GoMap?<string>, ghost used: set<object>) returns (out: GoMap?<string>)
    ensures fresh(MapCell(out)) && MapCell(out) !! used && FlatMapValue(out) == FlatMapValue(src)
  {
    if src == null {
      return null;
    }
    out := new GoMap<string>(map[], map[]);
    var keys := src.m.Keys;
    while keys != {}
      invariant keys <= src.m.Keys && out.m.Keys == src.m.Keys - keys
      invariant forall k :: k in out.m ==> out.m[k] == src.m[k]
      invariant fresh(out) && out.below == {}
    {
      var key :| key in keys;
      out.m := out.m[key := src.m[key]];
      keys := keys - {key};
    }
    assert out.m == src.m;
  }
}
