/** Optional values, standing in for Python's `Optional[...]` / `None`. */
module Wrappers {

  datatype Option<+T> = None | Some(value: T)

  /** The values of the `Some` entries of `s`, in their order in `s`
      (Python: `[x for x in s if x is not None]`). */
  function Somes<T(!new)>(s: seq<Option<T>>): (r: seq<T>)
    ensures |r| <= |s|
    ensures forall x :: x in r <==> Some(x) in s
  {
    if s == [] then []
    else
      var tail := Somes(s[1..]);
      assert forall x :: Some(x) in s <==> s[0] == Some(x) || Some(x) in s[1..];
      if s[0].Some? then [s[0].value] + tail else tail
  }

  /** Filtering distributes over concatenation, so `Somes` keeps the order
      and the multiplicity of the values it keeps. */
  lemma {:induction false} SomesConcat<T(!new)>(s: seq<Option<T>>, t: seq<Option<T>>)
    ensures Somes(s + t) == Somes(s) + Somes(t)
  {
    if s == [] {
      assert s + t == t;
    } else {
      assert (s + t)[1..] == s[1..] + t;
      SomesConcat(s[1..], t);
    }
  }

  /** A single entry is kept as itself, or dropped when it is `None`. */
  lemma SomesOfOne<T(!new)>(o: Option<T>)
    ensures Somes([o]) == if o.Some? then [o.value] else []
  {
    assert [o][1..] == [];
  }
}
