# euclidean_vector in Dafny

A model of `comp6771::euclidean_vector`, a C++ value type that holds a heap buffer of
`dim_` doubles and a memoised Euclidean norm. `altered_` says the memo is stale and
`cache_` holds it. The model covers:

- the constructors, including the copy constructor that swaps the memo with its source, and the move constructor;
- copy-and-swap copy and move assignment;
- checked (`at`) and unchecked (`[]`) access, with their effect on the memo;
- the compound operators `+= -= *= /=` and the free operators built on them;
- `==` and `!=`;
- `euclidean_norm`, `unit` and `dot`;
- the conversions to `std::vector` and `std::list`;
- the bracket-and-space layout of `operator<<`;
- the private pointer-based `Iterator`.

Layout:

- `errors.dfy` (module `Errors`): the exceptions as values. `Result<T>` stands for a value-returning operation that may throw, and `Outcome` for an operation whose result is the receiver itself.
- `vector_math.dfy` (module `VectorMath`), pure functions on the element sequence:
  - elementwise add, subtract, scale and divide;
  - the sum of squares and the dot product, both accumulated from the front as the source's loops do;
  - the square-root stand-in and the rendering;
  - lemmas about all of these.
- `iterators.dfy` (module `Iterators`): class `Iterator`, a buffer plus an integer position standing for the raw pointer.
- `euclidean_vector.dfy` (module `EuclideanVectors`): class `EuclideanVector` with the fields `data`, `dim`, `altered` and `cache`, and the friend functions as module-level methods.

Elements are `real`s, so arithmetic is exact. Exceptions become `Failure(...)`/`Fail(...)`
results carrying the dimensions or the index the message reports. `Valid()` says the
buffer holds `dim` elements. `CacheCoherent()` is the cache invariant
`!altered ==> cache == Norm(elements)`. Every modelled operation keeps it except `unit`.
In the source, a `double&` from the non-const `[]` or `at` that is written after a later
`euclidean_norm` also breaks it (see "## Left out").

Behaviours of the code that a reader of the interface might not expect; the model
follows the code:

- Move assignment copy-constructs from its argument, because inside the operator the argument is an lvalue. It then resets the argument. So the destination gets a new buffer, and `v = std::move(v)` leaves `v` at dimension 0, where a self-move is expected to leave the vector unchanged and a move to take over the buffer without allocating.
- The copy constructor hands the source's memo to the copy by `std::swap`. The source is left marked stale, holding the copy's uninitialised `cache_`, where a copy is expected to leave its source's memo as it was.
- `/=` by zero throws `std::logic_error`, modelled as `DivisionByZero`.
- `unit` returns a vector whose memo still claims `v`'s norm (see Findings), where its result is expected to have norm 1.

## Model

| member | source | states |
|---|---|---|
| `EuclideanVectors.NewBuffer` | source/euclidean_vector.cpp:15-20 | a new buffer of n elements, every one equal to the fill value |
| `EuclideanVectors.CopyInto` | source/euclidean_vector.cpp:21-25 | `std::copy` leaves the destination holding the source range in order |
| `EuclideanVectors.EuclideanVector.constructor` | source/euclidean_vector.cpp:9-10 | the default vector has dimension 1, element 0, memo stale |
| `EuclideanVectors.EuclideanVector.OfDimension` | source/euclidean_vector.cpp:12-13 | `(n)` gives n zeros in a new buffer, memo stale |
| `EuclideanVectors.EuclideanVector.Filled` | source/euclidean_vector.cpp:15-20 | `(n, m)` gives dimension n with every element m, memo stale |
| `EuclideanVectors.EuclideanVector.FromRange` | source/euclidean_vector.cpp:21-25 | range construction gives dimension end - start and the range's elements in order; the source is untouched |
| `EuclideanVectors.EuclideanVector.FromList` | source/euclidean_vector.cpp:27-30 | list construction gives the list's length and elements in order |
| `EuclideanVectors.EuclideanVector.Copy` | source/euclidean_vector.cpp:32-40 | new buffer with the same dimension and elements; the copy takes the source's `altered`/`cache`; the source keeps its elements and buffer and ends with `altered == true`; a coherent source gives a coherent copy |
| `EuclideanVectors.EuclideanVector.Move` | source/euclidean_vector.cpp:42-46 | the buffer itself, the dimension and the memo pass over; the source ends at dimension 0, stale, cache 0, with a new empty buffer |
| `EuclideanVectors.EuclideanVector.Swap` | source/euclidean_vector.cpp:49-54 | all four fields are exchanged |
| `EuclideanVectors.EuclideanVector.CopyAssign` | source/euclidean_vector.cpp:57-60 | this gets a new buffer holding right's elements and right's memo; another right keeps its buffer and elements and is marked stale; `v = v` keeps v's elements |
| `EuclideanVectors.EuclideanVector.MoveAssign` | source/euclidean_vector.cpp:62-70 | right ends at dimension 0, stale, cache 0, new empty buffer; a distinct destination gets right's old elements and memo in a new buffer; a self-move ends at dimension 0 |
| `EuclideanVectors.EuclideanVector.Positive` | source/euclidean_vector.cpp:72-74 | unary + is a new vector with the same elements that takes over the memo; the operand keeps its elements and is marked stale |
| `EuclideanVectors.EuclideanVector.Negative` | source/euclidean_vector.cpp:76-78 | unary - is a new vector with every element times -1, memo stale; the operand's elements are unchanged |
| `EuclideanVectors.EuclideanVector.AddAssign` | source/euclidean_vector.cpp:80-92 | fails with DimensionMismatch(lhs, rhs) exactly when the dimensions differ, changing nothing; otherwise elementwise sum and memo stale; right unchanged unless it shares the buffer; coherence kept |
| `EuclideanVectors.EuclideanVector.SubAssign` | source/euclidean_vector.cpp:94-106 | as `+=` with elementwise difference |
| `EuclideanVectors.EuclideanVector.MulAssign` | source/euclidean_vector.cpp:108-112 | never fails; every element multiplied; memo stale |
| `EuclideanVectors.EuclideanVector.DivAssign` | source/euclidean_vector.cpp:113-117 | fails with DivisionByZero exactly on a divisor of 0, changing nothing; otherwise it is `*= 1/x`, which divides every element |
| `EuclideanVectors.EuclideanVector.MutableSubscript` | source/euclidean_vector.cpp:119-122 | non-const `[]` read yields element i and always marks the memo stale |
| `EuclideanVectors.EuclideanVector.SetSubscript` | source/euclidean_vector.cpp:119-122 | non-const `[]` write stores at i only, and marks the memo stale |
| `EuclideanVectors.EuclideanVector.Subscript` | source/euclidean_vector.cpp:124-126 | const `[]` yields element i and never changes the memo |
| `EuclideanVectors.EuclideanVector.At` | source/euclidean_vector.cpp:128-135 | fails with OutOfRange(i) exactly when i < 0 or i >= dim; otherwise element i; never touches the memo |
| `EuclideanVectors.EuclideanVector.MutableAt` | source/euclidean_vector.cpp:137-145 | the same result as const `at`; the memo becomes stale exactly when the check passes |
| `EuclideanVectors.EuclideanVector.SetAt` | source/euclidean_vector.cpp:137-145 | out of range: OutOfRange(i) and nothing changes; else stores at i and marks the memo stale |
| `EuclideanVectors.EuclideanVector.Dimensions` | include/comp6771/euclidean_vector.hpp:55-57 | the dimension is the number of elements |
| `EuclideanVectors.EuclideanVector.UpdateAltered` | include/comp6771/euclidean_vector.hpp:80-82 | sets `altered` and nothing else |
| `EuclideanVectors.EuclideanVector.ToVector` | include/comp6771/euclidean_vector.hpp:59-63 | a new container holding exactly the elements in order |
| `EuclideanVectors.EuclideanVector.ToList` | include/comp6771/euclidean_vector.hpp:65-69 | a sequence equal to the elements, vector unchanged |
| `EuclideanVectors.EuclideanVector.Begin` | include/comp6771/euclidean_vector.hpp:183-191 | an iterator at position 0 of the buffer |
| `EuclideanVectors.EuclideanVector.End` | include/comp6771/euclidean_vector.hpp:186-194 | an iterator at position dim of the buffer |
| `EuclideanVectors.Span` | include/comp6771/euclidean_vector.hpp:183-194 | end() - begin() equals dimensions() |
| `EuclideanVectors.Equals` | source/euclidean_vector.cpp:148-156 | true exactly when the two element sequences (so also the dimensions) are equal |
| `EuclideanVectors.NotEquals` | source/euclidean_vector.cpp:158-160 | true exactly when the element sequences differ |
| `EuclideanVectors.Sum` | source/euclidean_vector.cpp:161-164 | fails with DimensionMismatch exactly when the dimensions differ; otherwise a new vector of elementwise sums, memo stale; the operands keep their elements |
| `EuclideanVectors.Difference` | source/euclidean_vector.cpp:165-168 | as binary + with differences |
| `EuclideanVectors.Product` | source/euclidean_vector.cpp:170-173 | a new vector with every element times num; the operand keeps its elements |
| `EuclideanVectors.Quotient` | source/euclidean_vector.cpp:175-178 | fails with DivisionByZero exactly on 0; otherwise a new vector with every element divided by num |
| `EuclideanVectors.Format` | source/euclidean_vector.cpp:180-191 | the output is "[", the formatted elements separated by single spaces, "]" |
| `EuclideanVectors.EuclideanNorm` | source/euclidean_vector.cpp:193-205 | returns the memo when it is not stale, else the norm of the elements; afterwards the memo holds the result and is not stale; on a coherent vector the result is the norm and coherence is kept |
| `EuclideanVectors.NormTwice` | source/euclidean_vector.cpp:193-205 | two calls with no change between return the same value |
| `EuclideanVectors.NormAfterScaleOfThreeFour` | test/euclidean_vector/euclidean_vector_friend_functions_tests.cpp:471-475 | norm of {3, 4} is 5, and after `*= 2` the next call returns 10, not the stale memo |
| `EuclideanVectors.Unit` | source/euclidean_vector.cpp:207-225 | dimension 0 fails first with UnitNoDimensions; a norm of 0 fails with UnitZeroNorm, which on a coherent vector happens exactly when all elements are 0; otherwise a new vector of the elements divided by the norm, with `altered == false` and `cache` equal to v's norm |
| `EuclideanVectors.UnitCorrected` | source/euclidean_vector.cpp:207-225 | the same results with the memo marked stale, so the result is coherent; when the sum of squares is a perfect square its norm is exactly 1 |
| `EuclideanVectors.DivideElements` | source/euclidean_vector.cpp:221-223 | every element divided by the norm, memo untouched |
| `EuclideanVectors.Dot` | source/euclidean_vector.cpp:227-239 | fails with DimensionMismatch(x, y) exactly when the dimensions differ; otherwise the sum of elementwise products |
| `EuclideanVectors.DoubleInPlace` | test/euclidean_vector/euclidean_vector_member_functions_tests.cpp:234-241 | `v += v` doubles every element |
| `EuclideanVectors.ZeroInPlace` | test/euclidean_vector/euclidean_vector_member_functions_tests.cpp:299-306 | `v -= v` leaves all zeros |
| `EuclideanVectors.SelfCopyKeeps` | test/euclidean_vector/euclidean_vector_member_functions_tests.cpp:65-72 | `v = v` on {1.1, 2.2} keeps dimension 2 and both elements |
| `EuclideanVectors.SelfMoveEmpties` | test/euclidean_vector/euclidean_vector_member_functions_tests.cpp:106-111 | `v = std::move(v)` leaves dimension 0 and `at(0)` fails |
| `EuclideanVectors.UnitNormOfThreeFour` | source/euclidean_vector.cpp:221-224 | for {3, 4}, euclidean_norm of unit's result returns 5 while the norm of its elements is 1 |
| `EuclideanVectors.UnitCorrectedNormOfThreeFour` | source/euclidean_vector.cpp:221-224 | for {3, 4}, euclidean_norm of the corrected unit's result is 1 |
| `VectorMath.Sqrt` | source/euclidean_vector.cpp:201 | the square-root stand-in is 0 at 0 and positive on positive input |
| `VectorMath.SqrtOfSquare` | source/euclidean_vector.cpp:201 | the stand-in is exact on the square of a natural |
| `VectorMath.SumSquaresNonNegative` | source/euclidean_vector.cpp:198-201 | the accumulated sum of squares is never negative |
| `VectorMath.SumSquaresZeroIff` | source/euclidean_vector.cpp:198-201 | the sum of squares is 0 exactly when every element is 0 |
| `VectorMath.NormZeroIff` | source/euclidean_vector.cpp:214-219 | the norm is non-negative and 0 exactly when every element is 0, which is unit's zero-norm case |
| `VectorMath.SumSquaresDivideAll` | source/euclidean_vector.cpp:221-223 | dividing every element by d divides the sum of squares by d squared |
| `VectorMath.DividedByNormHasNormOne` | source/euclidean_vector.cpp:207-225 | with a sum of squares k*k, the norm is k and the elements divided by it have norm 1 |
| `VectorMath.DotSelf` | source/euclidean_vector.cpp:235-238 | the dot product of a vector with itself is its sum of squares |
| `VectorMath.DotSymmetric` | source/euclidean_vector.cpp:235-238 | the dot product does not depend on operand order |
| `VectorMath.DotAddLeft` | source/euclidean_vector.cpp:235-238 | the dot product distributes over elementwise addition |
| `VectorMath.SubUndoesAdd` | source/euclidean_vector.cpp:80-106 | `-=` after `+=` with the same operand restores the elements |
| `VectorMath.AddSelfDoubles` | source/euclidean_vector.cpp:88-89 | adding a sequence to itself is scaling by 2 |
| `VectorMath.SubSelfZero` | source/euclidean_vector.cpp:102-103 | subtracting a sequence from itself gives zeros |
| `VectorMath.ScaleByReciprocal` | source/euclidean_vector.cpp:113-117 | multiplying by 1/x is dividing by x |
| `VectorMath.NormOfThreeFour` | test/euclidean_vector/euclidean_vector_friend_functions_tests.cpp:453-455 | the norm of {3, 4} is 5 |
| `VectorMath.NormOfSixEight` | test/euclidean_vector/euclidean_vector_friend_functions_tests.cpp:471-475 | {3, 4} doubled is {6, 8}, of norm 10 |
| `VectorMath.UnitOfThreeFour` | test/euclidean_vector/euclidean_vector_friend_functions_tests.cpp:525-533 | {3, 4} divided by 5 is {3/5, 4/5}, of norm 1 |
| `VectorMath.UnitOfThreeFourTwelve` | test/euclidean_vector/euclidean_vector_friend_functions_tests.cpp:535-544 | {3, 4, 12} has norm 13 and divides to {3/13, 4/13, 12/13} |
| `VectorMath.RenderShortSequences` | source/euclidean_vector.cpp:180-191 | dimension 0 renders as "[]", one element with no separator |
| `VectorMath.JoinAppend` | source/euclidean_vector.cpp:183-187 | for any two nonempty runs of elements, the output of the two together is the output of each with exactly one space between |
| `Iterators.Iterator.constructor` | include/comp6771/euclidean_vector.hpp:93-94 | an iterator at the given position of the buffer |
| `Iterators.Iterator.Deref` | include/comp6771/euclidean_vector.hpp:96-98 | `*it` reads the element under the iterator |
| `Iterators.Iterator.Store` | include/comp6771/euclidean_vector.hpp:96-98 | `*it = x` changes that one element only |
| `Iterators.Iterator.Increment` | include/comp6771/euclidean_vector.hpp:104-107 | `++it` moves one position on |
| `Iterators.Iterator.PostIncrement` | include/comp6771/euclidean_vector.hpp:108-112 | `it++` moves on and returns the old position |
| `Iterators.Iterator.Decrement` | include/comp6771/euclidean_vector.hpp:114-117 | `--it` moves one position back |
| `Iterators.Iterator.PostDecrement` | include/comp6771/euclidean_vector.hpp:118-122 | `it--` moves back and returns the old position |
| `Iterators.Iterator.AddAssign` | include/comp6771/euclidean_vector.hpp:124-127 | `it += n` moves n positions |
| `Iterators.Iterator.Plus` | include/comp6771/euclidean_vector.hpp:129-132 | `it + n` is a new iterator n on; it is unchanged |
| `Iterators.Iterator.SubAssign` | include/comp6771/euclidean_vector.hpp:134-136 | `it -= n` moves n positions back |
| `Iterators.Iterator.Minus` | include/comp6771/euclidean_vector.hpp:138-141 | `it - n` is a new iterator n back |
| `Iterators.Iterator.Difference` | include/comp6771/euclidean_vector.hpp:143-145 | `it - other` is the position difference |
| `Iterators.Iterator.Subscript` | include/comp6771/euclidean_vector.hpp:147-149 | `it[n]` is the element at position it + n |
| `Iterators.Iterator.Less` | include/comp6771/euclidean_vector.hpp:151-153 | `<` is position order |
| `Iterators.Iterator.Greater` | include/comp6771/euclidean_vector.hpp:155-157 | `>`, written as flipped `<`, is strict greater position |
| `Iterators.Iterator.LessEq` | include/comp6771/euclidean_vector.hpp:159-161 | `<=`, written as `!(right < this)`, is position `<=` |
| `Iterators.Iterator.GreaterEq` | include/comp6771/euclidean_vector.hpp:163-165 | `>=`, written as `!(this < right)`, is position `>=` |
| `Iterators.OffsetPlus` | include/comp6771/euclidean_vector.hpp:167-170 | `n + it` is a new iterator n past it |
| `Iterators.Iterator.Equal` | include/comp6771/euclidean_vector.hpp:172-174 | `==` is same buffer and same position |
| `Iterators.Iterator.NotEqual` | include/comp6771/euclidean_vector.hpp:175-177 | `!=` is the negation of `==` |
| `Iterators.PlusThenMinus` | include/comp6771/euclidean_vector.hpp:129-141 | `(it + n) - n == it` |
| `Iterators.PlusThenDifference` | include/comp6771/euclidean_vector.hpp:129-170 | `(it + n) - it == n`, and `n + it` is the same position as `it + n` |
| `Iterators.OrderTrichotomy` | include/comp6771/euclidean_vector.hpp:151-177 | exactly one of `<`, `==`, `>` holds; `<=` is `<` or `==`; `>=` is `>` or `==` |

## Left out

- Floating point: elements are exact reals. Rounding, and the float artefacts of `/=`'s reciprocal multiply, are not modelled.
- VectorMath.Sqrt: a stand-in for `std::sqrt`, the ceiling of the exact root found by a search over naturals. It is 0 exactly at 0, positive on positive input and exact on squares of naturals; nothing else about it is claimed. Because its body is visible, `EuclideanNorm` and `Unit` compute the stand-in's values, not `std::sqrt`'s, whenever the sum of squares is not the square of a natural: the model's norm of {1, 1} is 2 and its `unit({1, 1})` is {0.5, 0.5}.
- UnitCorrected: norm 1 is proved only when the sum of squares is the square of a natural, because of the square-root stand-in.
- Exception messages are not rebuilt; each error carries the dimensions or the index the message would report.
- `operator<<` with `std::ostream` and `std::to_string`: the element formatter is a parameter, and only the bracket and separator layout is modelled.
- `std::unique_ptr` and destruction: the buffer is a Dafny array, and releasing it is not modelled.
- The copy constructor's `this == &copy` test: a Dafny constructor's object is always new, so that branch cannot arise.
- Negative dimensions and out-of-range unchecked `[]`: undefined in the source, so they are preconditions.
- `cache_` has no initialiser: constructors that do not set it leave the Dafny field unconstrained.
- `euclidean_vector_error` is declared but never thrown, so it is not modelled.
- The iterator's default constructor and `operator->` expose raw pointers and are not modelled.
- Index loops: the loops of the compound operators, `==`, `euclidean_norm`, `unit` and `dot` walk an integer index where the source walks an iterator. `Format` uses the `Iterator` class.
- Reference results: the non-const `[]` and `at` return `double&`. Each is modelled as a read form (`MutableSubscript`, `MutableAt`) and a write form (`SetSubscript`, `SetAt`). The model assumes the write through the reference happens at once. The aliasing of a kept reference is not captured: in the source, the memo is marked stale when the reference is handed out, so `double& r = v[0]; euclidean_norm(v); r = 7;` leaves `altered_ == false` with the old `cache_`, and the next `euclidean_norm(v)` returns that stale value.
- Operands of range construction: the `std::vector` behind the const iterators is a sequence value with two positions.
- Concurrency: none in the source.

## Findings

| source | as written | input that shows it | evidently intended | confidence | as-written member | corrected member |
|---|---|---|---|---|---|---|
| source/euclidean_vector.cpp:221-224 | `unit` copies `v` right after `euclidean_norm(v)`, so the copy's swap hands it `altered_ == false` and `cache_ == norm(v)`; the loop then divides the elements through the iterator without `update_altered()`, leaving that memo in the result | `v = {3, 4}`: `euclidean_norm(unit(v))` returns 5, though the result's elements {3/5, 4/5} have norm 1 | the unit vector's memo is stale (or holds 1), so `euclidean_norm(unit(v))` is 1 | not executed | `EuclideanVectors.UnitNormOfThreeFour` | `EuclideanVectors.UnitCorrectedNormOfThreeFour` |
