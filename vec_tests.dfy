/** The literal scenarios of the test suite and the demonstration program,
    and the test fixture's component-wise check stated for every pair of vectors. */
module VecTests {
  import opened Vec

  /** Decimal rendering of a component with an integral value. */
  function Digits(n: nat): (r: string)
    ensures |r| >= 1
    ensures forall k | 0 <= k < |r| :: '0' <= r[k] <= '9'
  {
    var last := ('0' as int + n % 10) as char;
    if n < 10 then [last] else Digits(n / 10) + [last]
  }

  function Decimal(n: int): (r: string)
    ensures |r| >= 1 && ' ' !in r
  {
    if n < 0 then "-" + Digits(-n) else Digits(n)
  }

  /** The dot-product test: dot((0,1,2), (0,0,1)) is 2. */
  lemma DotScenario()
    ensures Dot(Vec3(0, 1, 2), Vec3(0, 0, 1)) == 2
  {
  }

  /** The sum and difference of the fixture's vectors. */
  lemma AddSubScenario(a: Vec3, b: Vec3)
    requires a == Vec3(0, 1, 2) && b == Vec3(0, 0, 1)
    ensures Add(a, b) == Vec3(0, 1, 3)
    ensures Sub(a, b) == Vec3(0, 1, 1)
  {
  }

  /** The two lines the demonstration program writes for a = (0,1,2), b = (0,0,1). */
  lemma DemoOutput()
    ensures Insert("a - b = ", Sub(Vec3(0, 1, 2), Vec3(0, 0, 1)), Decimal) == "a - b = 0 1 1"
    ensures "dot(a, b) = " + Decimal(Dot(Vec3(0, 1, 2), Vec3(0, 0, 1))) == "dot(a, b) = 2"
  {
    assert Decimal(0) == "0";
    assert Decimal(1) == "1";
    assert Decimal(2) == "2";
  }

  /** The fixture's set-up check: build `a + b` and `a - b` and compare every
      component with the sum and difference of the operands' components.
      Both flags stay true for every pair of vectors, not just the fixture's. */
  method ComponentwiseCheck(a: Vector, b: Vector) returns (addMatches: bool, subMatches: bool)
    requires a.Valid() && b.Valid()
    ensures addMatches && subMatches
  {
    var c := Plus(a, b);
    addMatches := true;
    for i := 0 to 3
      invariant addMatches
    {
      if c.At(i) != a.At(i) + b.At(i) {
        addMatches := false;
      }
    }
    var d := Minus(a, b);
    subMatches := true;
    for i := 0 to 3
      invariant subMatches
    {
      if d.At(i) != a.At(i) - b.At(i) {
        subMatches := false;
      }
    }
  }

  /** The fixture's two tests: with a = (0,1,2) and b = (0,0,1) both
      set-up flags come out true. */
  method FixtureScenario() returns (addMatches: bool, subMatches: bool)
    ensures addMatches && subMatches
  {
    var a := new Vector.Of(0, 1, 2);
    var b := new Vector.Of(0, 0, 1);
    addMatches, subMatches := ComponentwiseCheck(a, b);
  }

  /** Writing component 2 of a default-constructed vector through the mutable
      index leaves components 0 and 1 at zero. */
  method SetScenario() returns (x: int, y: int, z: int)
    ensures x == 0 && y == 0 && z == 5
  {
    var v := new Vector();
    v.Set(2, 5);
    x, y, z := v.At(0), v.At(1), v.At(2);
  }
}
