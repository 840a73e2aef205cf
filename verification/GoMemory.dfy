/**
 Go's memory as the deep-copy code sees it.  Struct values are datatypes; pointers, maps and slices are
 objects.  Each object carries the ghost set `below`, which bounds what can be reached through it; this
 is bookkeeping that any heap can be given.  Any number of fields and elements may refer to one object; what
 is not expressed is a pointer into the middle of one, or two slices over parts of one backing array.
 */
module GoMemory {
  import opened Wrappers

  newtype int8 = x: int | -0x80 <= x < 0x80
  newtype int16 = x: int | -0x8000 <= x < 0x8000
  newtype int32 = x: int | -0x8000_0000 <= x < 0x8000_0000

  /** A pointer target, `new(T)`. */
  class Ptr<T(0)> {
    var v: T
    ghost var below: set<object>

    constructor ()
      ensures below == {}
    {
      below := {};
    }
  }

  /** A map, `make(map[string]T)`. */
  class GoMap<T> {
    var m: map<string, T>
    ghost var below: set<object>
    ghost var parts: map<string, set<object>>  // the part of below that belongs to each entry

    constructor (m: map<string, T>, ghost parts: map<string, set<object>>)
      ensures this.m == m && this.parts == parts
      ensures below == set k, o | k in parts && o in parts[k] :: o
    {
      this.m, this.parts := m, parts;
      below := set k, o | k in parts && o in parts[k] :: o;
    }
  }

  /** A slice with its backing array, `make([]T, n)`. */
  class Slice<T(0)> {
    const a: array<T>
    ghost var below: set<object>
    ghost var parts: seq<set<object>>          // the part of below that belongs to each element

    constructor (a: array<T>, ghost parts: seq<set<object>>)
      ensures this.a == a && this.parts == parts
      ensures below == set i, o | 0 <= i < |parts| && o in parts[i] :: o
    {
      this.a, this.parts := a, parts;
      below := set i, o | 0 <= i < |parts| && o in parts[i] :: o;
    }
  }

  ghost function Ref(o: object?): set<object> {
    if o == null then {} else {o}
  }

  ghost function PtrCell<T(0)>(p: Ptr?<T>): set<object>
    reads p
  {
    if p == null then {} else {p} + p.below
  }

  ghost function MapCell<T>(m: GoMap?<T>): set<object>
    reads m
  {
    if m == null then {} else {m} + m.below
  }

  ghost function SliceCell<T(0)>(s: Slice?<T>): set<object>
    reads s
  {
    if s == null then {} else {s, s.a} + s.below
  }

  /** The value behind a pointer to a struct or number without pointers of its own. */
  ghost function FlatValue<T(0)>(p: Ptr?<T>): Option<T>
    reads p
  {
    if p == null then None else Some(p.v)
  }

  ghost function FlatMapValue<T>(m: GoMap?<T>): Option<map<string, T>>
    reads m
  {
    if m == null then None else Some(m.m)
  }

  ghost predicate DisjointEntries(regions: map<string, set<object>>) {
    forall k, k' :: k in regions && k' in regions && k != k' ==> regions[k] !! regions[k']
  }

  ghost predicate DisjointElements(regions: seq<set<object>>) {
    forall i, j :: 0 <= i < j < |regions| ==> regions[i] !! regions[j]
  }
}
