/** Sequence helpers shared by the server and the client models: the
    `filter`, `find` and `findIndex` of the array methods the source uses,
    together with the facts about them that the store queries rely on. */
module Seqs {

  datatype Option<+T> = None | Some(value: T)

  /** `s.filter(f)`: the elements of `s` that satisfy `f`, in their order in `s`. */
  function Filter<T(!new)>(s: seq<T>, f: T -> bool): (r: seq<T>)
    ensures |r| <= |s|
    ensures forall x :: x in r <==> x in s && f(x)
  {
    if s == [] then []
    else Filter(s[..|s| - 1], f) + (if f(s[|s| - 1]) then [s[|s| - 1]] else [])
  }

  /** Filtering commutes with concatenation: the filter keeps the relative
      order of the elements it retains. Together with the two one-element
      cases this fixes the filter's result exactly. */
  lemma {:induction false} FilterConcat<T(!new)>(a: seq<T>, b: seq<T>, f: T -> bool)
    ensures Filter(a + b, f) == Filter(a, f) + Filter(b, f)
  {
    if b == [] {
      assert a + b == a;
    } else {
      var init, last := b[..|b| - 1], b[|b| - 1];
      var keep := if f(last) then [last] else [];
      assert (a + b)[..|a + b| - 1] == a + init && (a + b)[|a + b| - 1] == last;
      assert Filter(a + b, f) == Filter(a + init, f) + keep;
      FilterConcat(a, init, f);
      assert Filter(b, f) == Filter(init, f) + keep;
    }
  }

  lemma FilterSingleton<T(!new)>(x: T, f: T -> bool)
    ensures Filter([x], f) == if f(x) then [x] else []
  {
    assert [x][..0] == [];
  }

  /** Appending one element extends the filter by that element exactly when it qualifies. */
  lemma FilterAppend<T(!new)>(s: seq<T>, x: T, f: T -> bool)
    ensures Filter(s + [x], f) == Filter(s, f) + (if f(x) then [x] else [])
  {
    FilterConcat(s, [x], f);
    FilterSingleton(x, f);
  }

  /** Every element of `s` satisfies exactly one of three predicates, so the
      three filters split `s` without loss or overlap. */
  lemma {:induction false} FilterPartition3<T(!new)>(s: seq<T>, f: T -> bool, g: T -> bool, h: T -> bool)
    requires forall x :: (f(x) || g(x) || h(x)) && !(f(x) && g(x)) && !(f(x) && h(x)) && !(g(x) && h(x))
    ensures |Filter(s, f)| + |Filter(s, g)| + |Filter(s, h)| == |s|
  {
    if s != [] {
      FilterPartition3(s[..|s| - 1], f, g, h);
    }
  }

  /** The concatenation of a list of lists, in order. */
  function Flatten<T>(ss: seq<seq<T>>): seq<T>
  {
    if ss == [] then [] else Flatten(ss[..|ss| - 1]) + ss[|ss| - 1]
  }

  lemma {:induction false} FlattenConcat<T>(a: seq<seq<T>>, b: seq<seq<T>>)
    ensures Flatten(a + b) == Flatten(a) + Flatten(b)
    decreases |b|
  {
    if b == [] {
      assert a + b == a;
    } else {
      var init, last := b[..|b| - 1], b[|b| - 1];
      assert (a + b)[..|a + b| - 1] == a + init && (a + b)[|a + b| - 1] == last;
      assert Flatten(a + b) == Flatten(a + init) + last;
      FlattenConcat(a, init);
      assert Flatten(b) == Flatten(init) + last;
    }
  }

  /** An element of a flattened list comes from one of the lists. */
  lemma {:induction false} FlattenMember<T>(ss: seq<seq<T>>, x: T)
    requires x in Flatten(ss)
    ensures exists i :: 0 <= i < |ss| && x in ss[i]
  {
    var init := ss[..|ss| - 1];
    if x !in ss[|ss| - 1] {
      FlattenMember(init, x);
      var i :| 0 <= i < |init| && x in init[i];
      assert x in ss[i];
    }
  }

  /** `s.findIndex(f)`: the index of the first element that satisfies `f`. */
  function FindIndex<T>(s: seq<T>, f: T -> bool): (r: Option<nat>)
    ensures r.Some? ==> r.value < |s| && f(s[r.value]) && forall j :: 0 <= j < r.value ==> !f(s[j])
    ensures r.None? <==> forall j :: 0 <= j < |s| ==> !f(s[j])
  {
    if s == [] then None
    else if f(s[0]) then Some(0)
    else match FindIndex(s[1..], f)
      case None => None
      case Some(k) => Some(k + 1)
  }

  /** `s.find(f)`: the first element that satisfies `f`, if any. */
  function Find<T>(s: seq<T>, f: T -> bool): (r: Option<T>)
    ensures r.Some? ==> exists i :: 0 <= i < |s| && s[i] == r.value && f(s[i]) && forall j :: 0 <= j < i ==> !f(s[j])
    ensures r.None? <==> forall x :: x in s ==> !f(x)
  {
    match FindIndex(s, f)
    case None => None
    case Some(i) => Some(s[i])
  }
}
