/** The arithmetic tools of `simple_rag/tools/calculator.py`: pure functions
    over Python's unbounded integers. */
module Calculator {

  /** The `add` tool. Subtracting either operand from the sum gives back the other. */
  function Add(a: int, b: int): (r: int)
    ensures r - b == a && r - a == b
  {
    a + b
  }

  /** The `multiply` tool. The product vanishes exactly when a factor does, and
      is positive exactly when the factors have the same sign. */
  function Multiply(a: int, b: int): (r: int)
    ensures r == 0 <==> a == 0 || b == 0
    ensures r > 0 <==> (a > 0 && b > 0) || (a < 0 && b < 0)
  {
    a * b
  }

  lemma AddCommutes(a: int, b: int)
    ensures Add(a, b) == Add(b, a)
  {
  }

  lemma AddIdentity(a: int)
    ensures Add(a, 0) == a && Add(0, a) == a
  {
  }

  lemma MultiplyCommutes(a: int, b: int)
    ensures Multiply(a, b) == Multiply(b, a)
  {
  }

  lemma MultiplyIdentityAndZero(a: int)
    ensures Multiply(a, 1) == a && Multiply(1, a) == a
    ensures Multiply(a, 0) == 0 && Multiply(0, a) == 0
  {
  }

  /** Reference definition of multiplication by a count: `n` repeated `add`s of `a`. */
  function Repeat(a: int, n: nat): int
  {
    if n == 0 then 0 else Add(Repeat(a, n - 1), a)
  }

  /** `multiply` by a natural number agrees with repeated `add`. */
  lemma {:induction false} MultiplyIsRepeatedAdd(a: int, n: nat)
    ensures Multiply(a, n) == Repeat(a, n)
  {
    if n > 0 {
      MultiplyIsRepeatedAdd(a, n - 1);
      assert Multiply(a, n) == Multiply(a, n - 1) + a;
    }
  }

  /** `multiply` on any pair of integers agrees with repeated `add`: `|b|` copies
      of `a`, negated when `b` is negative. */
  lemma {:induction false} MultiplyIsSignedRepeat(a: int, b: int)
    ensures Multiply(a, b) == if b >= 0 then Repeat(a, b) else -Repeat(a, -b)
  {
    if b >= 0 {
      MultiplyIsRepeatedAdd(a, b);
    } else {
      MultiplyIsRepeatedAdd(a, -b);
      assert Multiply(a, b) == -Multiply(a, -b);
    }
  }
}
