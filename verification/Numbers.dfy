/** Small arithmetic facts shared by the models: whole amounts and the two
    rounding rules of the source (`math.Round` and the verb `%.0f`). */
module Numbers {

  datatype Option<+T> = None | Some(value: T)

  /** A peso amount that an int32 field of the store can hold without truncation. */
  predicate Whole(x: real) {
    x == x.Floor as real
  }

  lemma FloorOf(x: real, n: int)
    requires n as real <= x < n as real + 1.0
    ensures x.Floor == n
  {
  }

  lemma WholeSum(a: real, b: real)
    requires Whole(a) && Whole(b)
    ensures Whole(a + b) && Whole(a - b)
  {
    FloorOf(a + b, a.Floor + b.Floor);
    FloorOf(a - b, a.Floor - b.Floor);
  }

  /** Round half away from zero, as Go's math.Round. */
  function Round(x: real): (n: int)
    ensures -0.5 <= n as real - x <= 0.5
    ensures x >= 0.0 ==> n as real - x > -0.5
    ensures x <= 0.0 ==> n as real - x < 0.5
  {
    if x >= 0.0 then (x + 0.5).Floor else -(-x + 0.5).Floor
  }

  lemma RoundWhole(x: real)
    requires Whole(x)
    ensures Round(x) as real == x
  {
    if x >= 0.0 { FloorOf(x + 0.5, x.Floor); } else { FloorOf(-x + 0.5, -x.Floor); }
  }

  /** Round half to even, as Go's fmt verb %.0f. */
  function RoundHalfEven(x: real): (n: int)
    ensures -0.5 <= n as real - x <= 0.5
    ensures x - x.Floor as real == 0.5 ==> n % 2 == 0
  {
    var down := x.Floor;
    var rest := x - down as real;
    if rest < 0.5 || (rest == 0.5 && down % 2 == 0) then down else down + 1
  }

  function Max(a: real, b: real): real {
    if a >= b then a else b
  }
}
