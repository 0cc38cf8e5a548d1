/** The value-accumulating builder `generic_list<T>`: an ordered buffer that
    chainable append operations grow, and that converts, without changing,
    into a sequence container, a fixed-capacity array or a push adapter. */
module AssignDetail {
  import opened ListSpec

  /** The exception thrown by the array conversion. */
  datatype ListException = ListException(what: string)

  const TooManyElements := ListException("array initialized with too many elements")

  /** The outcome of a conversion that may throw. */
  datatype Result<R> = Ok(value: R) | Err(error: ListException)

  /** The builder. `elems` is the deque it inherits from; `zero` stands for the
      default-constructed element `T()`. */
  class GenericList<T(0)> {
    var elems: seq<T>
    const zero: T

    /** An empty list whose element type default-constructs to `zero`. */
    constructor (zero: T)
      ensures elems == [] && this.zero == zero
    {
      this.zero := zero;
      elems := [];
    }

    /** `operator()()`: appends a default-constructed element. */
    method AppendDefault()
      modifies this
      ensures elems == old(elems) + [zero]
    {
      elems := elems + [zero];
    }

    /** `operator()(u)`: appends `u`. */
    method Append(u: T)
      modifies this
      ensures elems == old(elems) + [u]
    {
      elems := elems + [u];
    }

    /** `operator()(u, u2, ...)` with two to five arguments: appends the element
        that the element type's constructor `make` builds from `args`. */
    method AppendConstructed<A>(make: A -> T, args: A)
      modifies this
      ensures elems == old(elems) + [make(args)]
    {
      elems := elems + [make(args)];
    }

    /** `operator,(u)`: the comma form of appending `u`. */
    method Comma(u: T)
      modifies this
      ensures elems == old(elems) + [u]
    {
      elems := elems + [u];
    }

    /** `repeat(sz, u)`: appends `sz` copies of `u`. */
    method Repeat(sz: nat, u: T)
      modifies this
      ensures elems == old(elems) + Repeated(u, sz)
    {
      var i := 0;
      while i != sz
        invariant i <= sz
        invariant elems == old(elems) + Repeated(u, i)
        decreases sz - i
      {
        i := i + 1;
        elems := elems + [u];
      }
    }

    /** `repeat_fun(sz, fun)`: calls the generator `sz` times and appends each
        result. The generator is a copy (it is passed by value), so the state it
        reaches is dropped. */
    method RepeatFun<S>(sz: nat, next: S -> (T, S), s: S)
      modifies this
      ensures elems == old(elems) + Run(next, s, sz).0
    {
      var i, st := 0, s;
      while i != sz
        invariant i <= sz
        invariant elems == old(elems) + Run(next, s, i).0
        invariant st == Run(next, s, i).1
        decreases sz - i
      {
        i := i + 1;
        var (v, st') := next(st);
        elems := elems + [v];
        st := st';
      }
    }

    /** `convert(c, default_type_tag)` and `to_container`: the container built
        from the range of the elements, by inserting each at the end. */
    method ToContainer() returns (c: seq<T>)
      ensures c == elems
    {
      c := [];
      for i := 0 to |elems|
        invariant c == elems[..i]
      {
        c := c + [elems[i]];
      }
      assert elems[..|elems|] == elems;
    }

    /** `convert(a, array_type_tag)` and `to_array`: an array of `capacity`
        slots holding the elements and then default values; throws when the
        elements do not fit. */
    method ToArray(capacity: nat) returns (r: Result<array<T>>)
      ensures r.Err? <==> capacity < |elems|
      ensures r.Err? ==> r.error == TooManyElements
      ensures r.Ok? ==> fresh(r.value)
      ensures r.Ok? ==> r.value.Length == capacity && r.value[..] == Padded(elems, capacity, zero)
    {
      var arr := new T[capacity];
      if arr.Length < |elems| {
        return Err(TooManyElements);
      }
      var n := 0;
      while n != |elems|
        invariant n <= |elems|
        invariant arr[..n] == elems[..n]
      {
        arr[n] := elems[n];
        n := n + 1;
      }
      while n < arr.Length
        invariant |elems| <= n <= arr.Length
        invariant arr[..|elems|] == elems
        invariant forall k :: |elems| <= k < n ==> arr[k] == zero
      {
        arr[n] := zero;
        n := n + 1;
      }
      ghost var padded := Padded(elems, capacity, zero);
      assert forall k :: 0 <= k < |elems| ==> arr[k] == arr[..|elems|][k] == padded[..|elems|][k];
      assert arr[..] == padded;
      r := Ok(arr);
    }

    /** `convert_to_adapter` and `to_adapter`: a default adapter `empty` with
        `push` called once per element, in order. */
    method ToAdapter<A>(empty: A, push: (A, T) -> A) returns (a: A)
      ensures a == PushAll(push, empty, elems)
    {
      a := empty;
      for i := 0 to |elems|
        invariant a == PushAll(push, empty, elems[..i])
      {
        assert elems[..i + 1][..i] == elems[..i];
        a := push(a, elems[i]);
      }
      assert elems[..|elems|] == elems;
    }
  }

  /** Conversions are `const`: converting twice in a row gives equal results,
      and the first array is not disturbed by the second conversion. */
  method ConversionIsRepeatable<T(0)>(l: GenericList<T>, capacity: nat)
    returns (c1: seq<T>, c2: seq<T>, r1: Result<array<T>>, r2: Result<array<T>>)
    ensures c1 == c2 == l.elems
    ensures r1.Ok? == r2.Ok? == (|l.elems| <= capacity)
    ensures r1.Ok? && r2.Ok? ==> r1.value != r2.value && r1.value[..] == r2.value[..]
  {
    c1 := l.ToContainer();
    c2 := l.ToContainer();
    r1 := l.ToArray(capacity);
    r2 := l.ToArray(capacity);
  }

  /** The container conversion agrees with pushing every element into an empty
      back-inserting adapter. */
  method ContainerMatchesAdapter<T(0)>(l: GenericList<T>) returns (c: seq<T>, q: seq<T>)
    ensures c == q == l.elems
  {
    c := l.ToContainer();
    q := l.ToAdapter([], PushBack);
    PushAllRecords([], l.elems);
  }
}
