/** A model of the templated three-component vector `_vec3<T>`.

    The component type `T` is modelled as the mathematical integers, so that
    every operation is exact.  The value of a vector is the datatype `Vec3`;
    the storage the C++ object owns (a fixed array of three components that
    `operator[]` can overwrite in place) is the class `Vector`.  The
    arithmetic operators are pure functions on values, each with a method
    beside it that reads two `Vector` objects, as the C++ friend operators do.
 */
module Vec {

  /** The three components X, Y, Z of a vector, in index order 0, 1, 2. */
  datatype Vec3 = Vec3(x: int, y: int, z: int)

  /** Read-only component access: index 0 is X, 1 is Y, 2 is Z.
      Any other index is undefined behaviour in the source, hence the precondition. */
  function Get(v: Vec3, i: int): (r: int)
    requires 0 <= i < 3
    ensures r == [v.x, v.y, v.z][i]
  {
    if i == 0 then v.x else if i == 1 then v.y else v.z
  }

  /** The value a default-constructed vector holds. */
  function Zero(): (r: Vec3)
    ensures forall i | 0 <= i < 3 :: Get(r, i) == 0
  {
    Vec3(0, 0, 0)
  }

  /** Component-wise sum. */
  function Add(a: Vec3, b: Vec3): (r: Vec3)
    ensures forall i | 0 <= i < 3 :: Get(r, i) == Get(a, i) + Get(b, i)
  {
    Vec3(a.x + b.x, a.y + b.y, a.z + b.z)
  }

  /** Component-wise difference, left operand minus right operand. */
  function Sub(a: Vec3, b: Vec3): (r: Vec3)
    ensures forall i | 0 <= i < 3 :: Get(r, i) == Get(a, i) - Get(b, i)
  {
    Vec3(a.x - b.x, a.y - b.y, a.z - b.z)
  }

  /** Sum of the pairwise products of the components, as the source writes it
      index by index. */
  function Dot(a: Vec3, b: Vec3): (r: int)
    ensures r == Get(a, 0) * Get(b, 0) + Get(a, 1) * Get(b, 1) + Get(a, 2) * Get(b, 2)
  {
    a.x * b.x + a.y * b.y + a.z * b.z
  }

  /** Two vectors are equal exactly when they agree at every index. */
  lemma ComponentwiseEqual(a: Vec3, b: Vec3)
    ensures a == b <==> forall i | 0 <= i < 3 :: Get(a, i) == Get(b, i)
  {
    if forall i | 0 <= i < 3 :: Get(a, i) == Get(b, i) {
      assert Get(a, 0) == Get(b, 0);
      assert Get(a, 1) == Get(b, 1);
      assert Get(a, 2) == Get(b, 2);
    }
  }

  lemma AddCommutative(a: Vec3, b: Vec3)
    ensures Add(a, b) == Add(b, a)
  {
  }

  lemma AddAssociative(a: Vec3, b: Vec3, c: Vec3)
    ensures Add(Add(a, b), c) == Add(a, Add(b, c))
  {
  }

  /** Subtraction undoes addition, in both orders. */
  lemma SubUndoesAdd(a: Vec3, b: Vec3)
    ensures Sub(Add(a, b), b) == a
    ensures Add(Sub(a, b), b) == a
  {
  }

  lemma SubSelf(a: Vec3)
    ensures Sub(a, a) == Zero()
  {
  }

  /** Subtraction is order-sensitive: swapping the operands negates every component. */
  lemma SubAntisymmetric(a: Vec3, b: Vec3)
    ensures forall i | 0 <= i < 3 :: Get(Sub(b, a), i) == -Get(Sub(a, b), i)
  {
  }

  lemma DotSymmetric(a: Vec3, b: Vec3)
    ensures Dot(a, b) == Dot(b, a)
  {
  }

  /** The dot product distributes over the sum and the difference on the left. */
  lemma DotLinear(a: Vec3, b: Vec3, c: Vec3)
    ensures Dot(Add(a, b), c) == Dot(a, c) + Dot(b, c)
    ensures Dot(Sub(a, b), c) == Dot(a, c) - Dot(b, c)
  {
  }

  lemma SquareNonNegative(n: int)
    ensures n * n >= 0
    ensures n * n == 0 <==> n == 0
  {
    if n < 0 {
      assert n * n == (-n) * (-n);
    }
  }

  /** `dot(a, a)`, the radicand of the magnitude, is never negative and is
      zero exactly for the zero vector; so the magnitude is zero exactly there. */
  lemma DotSelf(a: Vec3)
    ensures Dot(a, a) >= 0
    ensures Dot(a, a) == 0 <==> a == Zero()
  {
    SquareNonNegative(a.x);
    SquareNonNegative(a.y);
    SquareNonNegative(a.z);
  }

  /** Splits text at every single space, keeping empty fields, as a reader of
      the printed form would. */
  function Fields(s: string): (r: seq<string>)
    ensures |r| >= 1
  {
    if s == [] then [[]]
    else if s[0] == ' ' then [[]] + Fields(s[1..])
    else
      var rest := Fields(s[1..]);
      [[s[0]] + rest[0]] + rest[1..]
  }

  lemma {:induction false} FieldsWithoutSpace(a: string)
    requires ' ' !in a
    ensures Fields(a) == [a]
  {
    if a != [] {
      FieldsWithoutSpace(a[1..]);
      assert [a[0]] + a[1..] == a;
    }
  }

  lemma {:induction false} FieldsAtSpace(a: string, rest: string)
    requires ' ' !in a
    ensures Fields(a + " " + rest) == [a] + Fields(rest)
  {
    if a == [] {
      assert a + " " + rest == [' '] + rest;
    } else {
      var s := a + " " + rest;
      assert s[0] == a[0] && s[1..] == a[1..] + " " + rest;
      FieldsAtSpace(a[1..], rest);
      assert [a[0]] + a[1..] == a;
    }
  }

  /** The printed form: the three components in index order, separated by
      single spaces, with nothing around them.  `show` renders one component.
      Reading it back field by field gives the three rendered components in
      index order, provided no rendering contains a space. */
  function Format(v: Vec3, show: int -> string): (r: string)
    ensures |r| == |show(v.x)| + |show(v.y)| + |show(v.z)| + 2
    ensures ' ' !in show(v.x) && ' ' !in show(v.y) && ' ' !in show(v.z) ==>
              Fields(r) == [show(Get(v, 0)), show(Get(v, 1)), show(Get(v, 2))]
  {
    var sx, sy, sz := show(v.x), show(v.y), show(v.z);
    var r := sx + " " + (sy + " " + sz);
    if ' ' !in sx && ' ' !in sy && ' ' !in sz then
      FieldsAtSpace(sx, sy + " " + sz);
      FieldsAtSpace(sy, sz);
      FieldsWithoutSpace(sz);
      r
    else
      r
  }

  /** Stream insertion: appends the printed form to what was already written. */
  function Insert(out: string, v: Vec3, show: int -> string): (r: string)
    ensures |r| == |out| + |show(v.x)| + |show(v.y)| + |show(v.z)| + 2
    ensures r[..|out|] == out && r[|out|..] == Format(v, show)
  {
    out + Format(v, show)
  }

  /** The object the C++ class is: three components stored in a fixed array. */
  class Vector {
    const d: array<int>

    ghost predicate Valid()
      reads this
    {
      d.Length == 3
    }

    /** The vector value currently stored. */
    ghost function Value(): Vec3
      reads this, d
      requires Valid()
    {
      Vec3(d[0], d[1], d[2])
    }

    /** Default construction: every component is zero. */
    constructor ()
      ensures Valid() && fresh(d)
      ensures Value() == Zero()
    {
      d := new int[3][0, 0, 0];
    }

    /** Construction from three components, stored at indices 0, 1, 2 in that order. */
    constructor Of(a: int, b: int, c: int)
      ensures Valid() && fresh(d)
      ensures Get(Value(), 0) == a && Get(Value(), 1) == b && Get(Value(), 2) == c
    {
      d := new int[3][a, b, c];
    }

    /** Read-only index access. */
    function At(i: int): (r: int)
      reads this, d
      requires Valid() && 0 <= i < 3
      ensures r == Get(Value(), i)
    {
      d[i]
    }

    /** Assignment through the mutable index: component `i` becomes `v`,
        the other two keep their values. */
    method Set(i: int, v: int)
      requires Valid() && 0 <= i < 3
      modifies d
      ensures Valid()
      ensures Get(Value(), i) == v
      ensures forall j | 0 <= j < 3 && j != i :: Get(Value(), j) == Get(old(Value()), j)
    {
      d[i] := v;
    }
  }

  /** `a + b` on objects: a fresh vector holding the sum; neither operand changes. */
  method Plus(a: Vector, b: Vector) returns (c: Vector)
    requires a.Valid() && b.Valid()
    ensures fresh(c) && fresh(c.d) && c.Valid()
    ensures c.Value() == Add(a.Value(), b.Value())
    ensures a.Value() == old(a.Value()) && b.Value() == old(b.Value())
  {
    c := new Vector.Of(a.At(0) + b.At(0), a.At(1) + b.At(1), a.At(2) + b.At(2));
  }

  /** `a - b` on objects: a fresh vector holding the difference; neither operand changes. */
  method Minus(a: Vector, b: Vector) returns (c: Vector)
    requires a.Valid() && b.Valid()
    ensures fresh(c) && fresh(c.d) && c.Valid()
    ensures c.Value() == Sub(a.Value(), b.Value())
    ensures a.Value() == old(a.Value()) && b.Value() == old(b.Value())
  {
    c := new Vector.Of(a.At(0) - b.At(0), a.At(1) - b.At(1), a.At(2) - b.At(2));
  }

  /** `dot(a, b)` on objects. */
  method DotOf(a: Vector, b: Vector) returns (r: int)
    requires a.Valid() && b.Valid()
    ensures r == Dot(a.Value(), b.Value())
  {
    r := a.At(0) * b.At(0) + a.At(1) * b.At(1) + a.At(2) * b.At(2);
  }
}
