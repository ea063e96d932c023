/** Go's 64-bit `int`: its range and its wrap-around addition. */
module GoInt {

  const MaxInt: int := 0x7FFF_FFFF_FFFF_FFFF
  const MinInt: int := -0x8000_0000_0000_0000
  const Modulus: int := 0x1_0000_0000_0000_0000

  predicate IsInt(x: int) {
    MinInt <= x <= MaxInt
  }

  /** `a + b` on Go `int` values: the mathematical sum reduced into the 64-bit range. */
  function Add(a: int, b: int): (r: int)
    requires IsInt(a) && IsInt(b)
    ensures IsInt(r)
    ensures r == a + b || r == a + b - Modulus || r == a + b + Modulus
    ensures IsInt(a + b) ==> r == a + b
  {
    var sum := a + b;
    if sum > MaxInt then sum - Modulus
    else if sum < MinInt then sum + Modulus
    else sum
  }
}
