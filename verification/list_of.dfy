/** The free functions that build a `generic_list` in one expression, and the
    worked examples of building and converting one. */
module Assign {
  import opened ListSpec
  import opened AssignDetail

  /** `list_of<T>()`: an empty list. */
  method ListOf<T(0)>(zero: T) returns (l: GenericList<T>)
    ensures fresh(l) && l.elems == [] && l.zero == zero
  {
    l := new GenericList(zero);
  }

  /** `list_of(t)`: the one-element list `[t]`. */
  method ListOfOne<T(0)>(zero: T, t: T) returns (l: GenericList<T>)
    ensures fresh(l) && l.elems == [t] && l.zero == zero
  {
    l := new GenericList(zero);
    l.Append(t);
  }

  /** `list_of<T>(u, u2, ...)` with two to five arguments: the one-element list
      holding what the element type's constructor `make` builds from `args`. */
  method ListOfConstructed<T(0), A>(zero: T, make: A -> T, args: A) returns (l: GenericList<T>)
    ensures fresh(l) && l.elems == [make(args)] && l.zero == zero
  {
    l := new GenericList(zero);
    l.AppendConstructed(make, args);
  }

  /** `map_list_of(k, t)`: the one-element list of the pair `(k, t)`, built by
      the pair's two-argument constructor. */
  method MapListOf<K(0), V(0)>(zero: (K, V), k: K, t: V) returns (l: GenericList<(K, V)>)
    ensures fresh(l) && l.elems == [(k, t)] && l.zero == zero
  {
    l := new GenericList(zero);
    l.AppendConstructed((kv: (K, V)) => (kv.0, kv.1), (k, t));
  }

  /** `list_of(1)(2), 3` converted to arrays of capacity 5 and 2, and to a
      container before and after one more default append. */
  method ArrayConversionExample()
    returns (five: seq<int>, two: Result<array<int>>, before: seq<int>, after: seq<int>)
    ensures five == [1, 2, 3, 0, 0]
    ensures two == Err(TooManyElements)
    ensures before == [1, 2, 3] && after == [1, 2, 3, 0]
  {
    var l := ListOfOne(0, 1);
    l.Append(2);
    l.Comma(3);
    var r := l.ToArray(5);
    five := r.value[..];
    assert five[..3] == [1, 2, 3];
    two := l.ToArray(2);
    before := l.ToContainer();
    l.AppendDefault();
    after := l.ToContainer();
  }

  /** `repeat_fun(3, counter)` on an empty list calls the counter three times,
      while `repeat(3, 7)` appends the same value three times. */
  method RepeatExample() returns (generated: seq<int>, repeated: seq<int>)
    ensures generated == [0, 1, 2]
    ensures repeated == [7, 7, 7]
  {
    var g := ListOf(0);
    g.RepeatFun(3, Counter, 0);
    CounterRun(0, 3);
    generated := g.ToContainer();
    var l := ListOf(0);
    l.Repeat(3, 7);
    repeated := l.ToContainer();
  }
}
