# Boost.Assign `list_of`: a verified model of the list builder

Boost.Assign's `list_of` builds a container's contents with chained calls, as in
`list_of(1)(2), 3` or `map_list_of(1, "a")`. The calls fill a builder,
`generic_list<T>`. The builder is a `std::deque<T>` with chainable append
operators. It converts on demand, without changing itself, into one of three
shapes: a container built from its range, a fixed-size `boost::array`, or an
adapter (a stack, a queue) that takes one `push` per element.

This project models that builder in Dafny:

- `list_spec.dfy` (module `ListSpec`) holds the specification functions and
  their lemmas:
  - `Repeated` is what `repeat` appends.
  - `Run` is what a stateful nullary generator yields when it is called again
    and again.
  - `PushAll` is the adapter after one `push` per element.
  - `Padded` is the array's contents after conversion.
- `generic_list.dfy` (module `AssignDetail`) holds the class `GenericList`:
  - the buffer is a `seq<T>` field that each append method reassigns;
  - the conversions are methods that change nothing and return a new sequence,
    a new `array` or the `list_exception` error, or the adapter's value;
  - two client methods show that converting does not consume the buffer.
- `list_of.dfy` (module `Assign`) holds the free functions `list_of` and
  `map_list_of`, and two worked examples.

Modelling choices:

- The element type's default value `T()` is the `zero` constant the list is
  created with.
- A constructor call with several arguments, `T(u, u2, ...)`, is a
  caller-supplied function `make` applied to an argument tuple.
- The nullary generator of `repeat_fun` is a step function `next: S -> (T, S)`
  started in state `s`. The source passes the generator by value, so the state
  it reaches is dropped.
- A push adapter is a default value `empty` and a function `push: (A, T) -> A`.
- The source chooses array or container conversion at compile time. That
  choice is made explicit here: `ToArray` and `ToContainer` are separate
  methods, as `to_array` and `to_container` are.

`AssignDetail.GenericList.AppendConstructed` and `Assign.ListOfConstructed`
stand for the overloads with two to five arguments at
include/boost/assign/list_of.hpp:105-131 and :347-373.

## Model

| member | source | states |
|---|---|---|
| `AssignDetail.GenericList.constructor` | include/boost/assign/list_of.hpp:82-85 | a new builder holds no elements; `zero` is the element type's default value |
| `AssignDetail.GenericList.AppendDefault` | include/boost/assign/list_of.hpp:92-96 | the buffer grows by exactly one, the new last element is `T()`, and the earlier elements are unchanged |
| `AssignDetail.GenericList.Append` | include/boost/assign/list_of.hpp:98-103 | the buffer grows by exactly one, the new last element is `u`, and the earlier elements are unchanged |
| `AssignDetail.GenericList.AppendConstructed` | include/boost/assign/list_of.hpp:105-131 | the buffer grows by exactly one element: the value the element constructor builds from the arguments |
| `AssignDetail.GenericList.Comma` | include/boost/assign/list_of.hpp:133-138 | the comma form appends `u` exactly as `Append` does |
| `AssignDetail.GenericList.Repeat` | include/boost/assign/list_of.hpp:140-147 | the counter loop appends exactly `sz` copies of `u` after the untouched prefix; with `sz == 0` nothing changes |
| `AssignDetail.GenericList.RepeatFun` | include/boost/assign/list_of.hpp:149-156 | the counter loop appends the results of `sz` successive generator calls, in call order, after the untouched prefix |
| `AssignDetail.GenericList.ToContainer` | include/boost/assign/list_of.hpp:203-221 | inserting each element at the end of an empty container gives exactly the buffer, in order; this is the copy that the range constructor makes |
| `AssignDetail.GenericList.ToArray` | include/boost/assign/list_of.hpp:246-260 | fails with `list_exception` iff the capacity is less than the size; otherwise it returns a new array, which the caller owns, with `capacity` slots, the elements in order and then `T()` in every later slot |
| `AssignDetail.GenericList.ToAdapter` | include/boost/assign/list_of.hpp:262-271 | the result is the default adapter with `push` applied once per element, first element first |
| `AssignDetail.ConversionIsRepeatable` | include/boost/assign/list_of.hpp:203-260 | converting twice gives equal containers, and both array conversions fail or succeed together. On success they give two distinct arrays with equal contents. The buffer is not consumed |
| `AssignDetail.ContainerMatchesAdapter` | include/boost/assign/list_of.hpp:203-271 | container conversion and conversion into an empty back-inserting adapter both yield the buffer |
| `ListSpec.Repeated` | include/boost/assign/list_of.hpp:140-147 | `n` repeated push_backs of `u` give a sequence of length `n` whose every element is `u` |
| `ListSpec.RepeatedAdd` | include/boost/assign/list_of.hpp:140-147 | `repeat(m, u)` followed by `repeat(n, u)` appends what `repeat(m + n, u)` appends |
| `ListSpec.Run` | include/boost/assign/list_of.hpp:149-156 | `n` generator calls yield exactly `n` values |
| `ListSpec.RunAt` | include/boost/assign/list_of.hpp:149-156 | slot `i` holds the result of the (i+1)-th call, made in the state the first `i` calls left, so the generator runs again for every slot |
| `ListSpec.RunPrefix` | include/boost/assign/list_of.hpp:149-156 | the values of fewer calls are a prefix of the values of more calls |
| `ListSpec.RunStateless` | include/boost/assign/list_of.hpp:140-156 | for a generator whose state never changes, `repeat_fun` appends what `repeat` of its one value appends |
| `ListSpec.CounterRun` | include/boost/assign/list_of.hpp:149-156 | a counting generator called `n` times from `c` yields `c, c+1, ..., c+n-1`, never one reused value |
| `ListSpec.PushAllAppend` | include/boost/assign/list_of.hpp:262-271 | pushing the elements of `s + t` equals pushing those of `s` and then those of `t` |
| `ListSpec.PushAllRecords` | include/boost/assign/list_of.hpp:262-271 | an adapter that records its pushes receives exactly the elements, in buffer order |
| `ListSpec.PushAllTally` | include/boost/assign/list_of.hpp:262-271 | `push` is called exactly once per element |
| `ListSpec.Padded` | include/boost/assign/list_of.hpp:252-259 | the array has `capacity` slots: the elements in the leading slots and the default value in every slot after them |
| `Assign.ListOf` | include/boost/assign/list_of.hpp:333-338 | `list_of<T>()` returns a new, empty list |
| `Assign.ListOfOne` | include/boost/assign/list_of.hpp:340-345 | `list_of(t)` returns a new list holding exactly `[t]` |
| `Assign.ListOfConstructed` | include/boost/assign/list_of.hpp:347-373 | `list_of<T>(u, u2, ...)` returns a new list holding exactly the one constructed element |
| `Assign.MapListOf` | include/boost/assign/list_of.hpp:375-380 | `map_list_of(k, t)` returns a new list holding exactly the pair `(k, t)` |
| `Assign.ArrayConversionExample` | include/boost/assign/list_of.hpp:246-260 | `1, 2, 3` into capacity 5 gives `[1, 2, 3, 0, 0]`, and into capacity 2 throws. A later append shows in the next conversion but not in an earlier one |
| `Assign.RepeatExample` | include/boost/assign/list_of.hpp:140-156 | `repeat_fun(3, counter)` gives `[0, 1, 2]`, while `repeat(3, 7)` gives `[7, 7, 7]` |

## Left out

- include/boost/assign/insert_assigner.hpp is not part of this model. Every operation there forwards to a free function `insert(c, v)` whose definition is not among the modelled files.
- The implicit `operator Container()` (include/boost/assign/list_of.hpp:182-201) is not modelled. It picks the array or the container conversion by compile-time type tests (`is_array`, `sizeof`, `mpl::if_c`). Callers choose `ToArray` or `ToContainer` explicitly instead.
- The `adapter_converter` proxy and the argument-less `to_adapter()` (include/boost/assign/list_of.hpp:273-304) are not modelled. They are an implicit-conversion device whose only effect is `convert_to_adapter`, which `ToAdapter` models.
- Commented-out code is not modelled: `repeat_from_to`, the pair-aware `convert` and `operator+`.
- Compiler workarounds are not modelled: the Borland padding members and the Dinkumware `#if`. `ToContainer` follows the Dinkumware insert-at-end loop. The range constructor makes the same copy of a sequence container.
- Conversion into associative or set containers is not modelled. With those targets, duplicate keys and ordering follow the standard container's rules, which are outside these files. The container in this model is an order-preserving sequence.
- The internals of `assign::list_exception` are not modelled: its header is not among the modelled files. The model keeps only the message the array conversion passes to it.
- Implicit conversions of arguments from `U` to `T` are not modelled. Appended values already have the element type. The array's element type is taken to be `T`, so `Array::value_type()` is the list's `zero`.
- Append operations return nothing rather than a reference to the list: a chain is a sequence of calls on the same object.
- `AssignDetail.GenericList.Repeat` and `AssignDetail.GenericList.RepeatFun`: `sz` is an unbounded `nat`, not a `std::size_t`. In `while( i++ != sz )` the counter is incremented once more after the last test, so it ends at `sz + 1` and wraps to 0 when `sz` is `SIZE_MAX`. That happens after the loop has already exited, and the body runs exactly `sz` times. The unbounded loop reproduces that count.
- `AssignDetail.GenericList.ToAdapter`: an adapter is a value, and `push` is a pure function of the adapter and the element. Side effects that a user-defined `push` has elsewhere are not modelled.
- `AssignDetail.GenericList.RepeatFun`: the generator is a pure step function on an explicit state. Side effects of a user-defined functor outside its own state are not modelled. An exception thrown by a generator call `fun()` is not modelled either.
- Exceptions thrown by element constructors and allocation failures in `push_back` are not modelled.
