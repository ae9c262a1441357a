/** Java `int` arithmetic: 32-bit two's complement with silent wrap-around. */
module Int32 {

  const Modulus: int := 0x1_0000_0000

  type int32 = x: int | -0x8000_0000 <= x < 0x8000_0000

  /** Two integers that a 32-bit register cannot tell apart. */
  predicate Congruent(x: int, y: int) {
    (x - y) % Modulus == 0
  }

  /** The `int` a Java expression yields when its exact value is `x`. */
  function Wrap(x: int): (r: int32)
    ensures Congruent(r, x)
  {
    (x + 0x8000_0000) % Modulus - 0x8000_0000
  }

  /** `31 * acc + x` evaluated in Java `int`: each operation wraps. */
  function MulAdd(acc: int32, x: int32): int32 {
    Wrap(Wrap(31 * acc) + x)
  }

  /** Wrap is the identity on values that already fit. */
  lemma WrapFits(x: int32)
    ensures Wrap(x) == x
  {
  }

  /** Congruent integers wrap to the same `int`. */
  lemma WrapCongruent(x: int, y: int)
    requires Congruent(x, y)
    ensures Wrap(x) == Wrap(y)
  {
  }

  lemma CongruentSum(a: int, a': int, b: int, b': int)
    requires Congruent(a, a') && Congruent(b, b')
    ensures Congruent(a + b, a' + b')
  {
  }

  lemma CongruentScale(a: int, a': int, c: int)
    requires Congruent(a, a')
    ensures Congruent(c * a, c * a')
  {
    var i := (a - a') / Modulus;
    assert a - a' == i * Modulus;
    assert c * a - c * a' == (c * i) * Modulus;
  }

  /** One hashCode step is congruent to its exact value. */
  lemma MulAddCongruent(acc: int32, acc': int, x: int32)
    requires Congruent(acc, acc')
    ensures Congruent(MulAdd(acc, x), 31 * acc' + x)
  {
    CongruentScale(acc, acc', 31);
    var m := Wrap(31 * acc);
    CongruentSum(m, 31 * acc, x, x);
    CongruentTrans(Wrap(m + x), m + x, 31 * acc + x);
    CongruentSum(31 * acc, 31 * acc', x, x);
    CongruentTrans(Wrap(m + x), 31 * acc + x, 31 * acc' + x);
  }

  lemma CongruentTrans(a: int, b: int, c: int)
    requires Congruent(a, b) && Congruent(b, c)
    ensures Congruent(a, c)
  {
  }
}
