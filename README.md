# Three-component vector `_vec3<T>`

This project models the header-only C++ class `_vec3<T>` (`vec.h`). The class is a fixed
three-component vector. It supports a zero constructor and a three-value constructor.
It has mutable and read-only `operator[]`, component-wise `+` and `-`, `dot`, and a
stream printer that writes the components separated by spaces.

The component type `T` is modelled as Dafny's unbounded `int`, so the arithmetic is exact.
This gives the same results as `double3` on integer-valued inputs whose components, sums
and products stay below 2^53 in magnitude. The inputs used by the test suite and the
demonstration program are of this kind.

- `vec.dfy`, module `Vec`, holds the model:
  - the value of a vector is the datatype `Vec3`;
  - the object is the class `Vector`. Its array `d[3]` can be overwritten one component at
    a time, and each object owns its own array, which is allocated by its constructor and never
    replaced;
  - `+`, `-` and `dot` are pure functions on values (`Add`, `Sub`, `Dot`), proved against
    their algebraic partners;
  - the methods `Plus`, `Minus` and `DotOf` read two `Vector` objects, as the C++ friend
    operators do.
- `vec_tests.dfy`, module `VecTests`, holds the literal scenarios of the test suite and
  the demonstration program, and an example of a write through the mutable index. It also states the test fixture's component-wise check for
  every pair of vectors.

An index outside 0..2 is undefined behaviour in the source, because `operator[]` does no
bounds check. In the model it is a precondition (`0 <= i < 3`), not an error result.

## Model

| member | source | states |
|---|---|---|
| Vec.Get | vec.h:41-47 | read-only access on a value: index 0, 1 or 2 yields the X, Y or Z component, that is, the element at that index of the component sequence |
| Vec.Zero | vec.h:19-22 | the default value has component 0 at every index |
| Vec.Vector.constructor | vec.h:19-22 | default construction allocates fresh storage holding (0, 0, 0) |
| Vec.Vector.Of | vec.h:24-31 | construction stores `a`, `b`, `c` at indices 0, 1, 2, in that order |
| Vec.Vector.At | vec.h:41-47 | read-only access at an index in 0..2 yields that component of the stored value |
| Vec.Vector.Set | vec.h:33-39 | writing through index `i` (0..2) makes component `i` the new value; the other two components are unchanged and the storage stays three long |
| Vec.ComponentwiseEqual | vec.h:108-109 | two vectors are equal if and only if they agree at indices 0, 1 and 2 |
| Vec.Add | vec.h:49-58 | for every index in 0..2, a component of the sum is the sum of the operands' components |
| Vec.Sub | vec.h:60-69 | for every index in 0..2, a component of the difference is the left component minus the right one |
| Vec.Plus | vec.h:56-58 | `a + b` on objects returns a fresh vector whose value is the sum; neither operand changes |
| Vec.Minus | vec.h:67-69 | `a - b` on objects returns a fresh vector whose value is the difference; neither operand changes |
| Vec.DotOf | vec.h:80-82 | `dot(a, b)` on objects equals the dot product of the two stored values |
| Vec.AddCommutative | vec.h:56-58 | `a + b == b + a` |
| Vec.AddAssociative | vec.h:56-58 | `(a + b) + c == a + (b + c)` |
| Vec.SubUndoesAdd | vec.h:56-69 | `(a + b) - b == a` and `(a - b) + b == a` |
| Vec.SubSelf | vec.h:67-69 | `a - a` is the zero vector |
| Vec.SubAntisymmetric | vec.h:67-69 | subtraction is order-sensitive: each component of `b - a` is the negation of that component of `a - b` |
| Vec.Dot | vec.h:71-82 | `dot(a, b) == a[0]*b[0] + a[1]*b[1] + a[2]*b[2]`, the sum of the pairwise component products, in terms of index access |
| Vec.DotSymmetric | vec.h:80-82 | `dot(a, b) == dot(b, a)` |
| Vec.DotLinear | vec.h:56-82 | `dot(a + b, c) == dot(a, c) + dot(b, c)` and `dot(a - b, c) == dot(a, c) - dot(b, c)` |
| Vec.DotSelf | vec.h:84-94 | `dot(a, a)`, the value whose square root is the magnitude, is non-negative and is zero if and only if `a` is the zero vector |
| Vec.Insert | vec.h:96-106 | stream insertion keeps what the stream already holds and appends exactly the printed form, whose length is that of the three rendered components plus two separators |
| Vec.Format | vec.h:103-106 | the printed form is as long as the three rendered components plus two separators; splitting the printed form at single spaces gives back the rendered components 0, 1, 2 in that order, with no brackets or other text, provided no rendering contains a space |
| VecTests.DotScenario | vec_tests.cpp:7-12 | `dot((0,1,2), (0,0,1)) == 2` |
| VecTests.AddSubScenario | vec_tests.cpp:29-53 | for the fixture's vectors (0,1,2) and (0,0,1), `a + b == (0,1,3)` and `a - b == (0,1,1)` |
| VecTests.DemoOutput | main.cpp:13-20 | for a = (0,1,2) and b = (0,0,1) the demonstration writes `a - b = 0 1 1` and `dot(a, b) = 2` |
| VecTests.ComponentwiseCheck | vec_tests.cpp:36-54 | the fixture's loops that compare `(a+b)[i]` with `a[i]+b[i]` and `(a-b)[i]` with `a[i]-b[i]` leave both flags true for every pair of vectors |
| VecTests.FixtureScenario | vec_tests.cpp:29-77 | with the fixture's vectors both set-up flags are true, as the tests `VecAdd` and `VecSub` expect |
| VecTests.SetScenario | vec.h:33-39 | writing 5 through index 2 of a default-constructed vector gives (0, 0, 5): only that component changes |

## Left out

- `mag` (vec.h:92-94) is not modelled because it is a floating-point square root returning `double`. `Vec.DotSelf` states the exact facts about its radicand: it is non-negative, and it is zero only for the zero vector.
- IEEE `double` arithmetic for `double3` (vec.h:112) is not modelled: components are unbounded integers, so rounding, overflow, NaN and infinities are absent.
- `std::ostream` output (vec.h:103-106) is modelled as text that is appended to. The rendering of one component is a parameter (`show`). The scenarios use `VecTests.Decimal`, an exact integer rendering; it agrees with the stream's default rendering of `double` only for integral values below 10^6 in magnitude.
- The fixture's and test runner's plumbing (vec_tests.cpp:19-35, vec_tests.cpp:56-86) is not modelled. It includes the GoogleTest macros, `TearDown` and `main`.
- The demonstration program (main.cpp) only writes to standard output. Its computed values are covered by `VecTests.AddSubScenario` and `VecTests.DotScenario`.
- Value-semantics copying (the implicit copy constructor) is not modelled as its own operation. Values of `Vec3` are immutable, and every `Vector` that `Plus` and `Minus` return owns fresh storage.
