/** Arithmetic on 32 bits in two's complement. */
module Int32 {
  const HALF_RANGE: int := 0x8000_0000
  const FULL_RANGE: int := 0x1_0000_0000

  function Wrap(n: int): (r: int)
    ensures -HALF_RANGE <= r < HALF_RANGE
    ensures (r - n) % FULL_RANGE == 0
    ensures -HALF_RANGE <= n < HALF_RANGE ==> r == n
  {
    (n + HALF_RANGE) % FULL_RANGE - HALF_RANGE
  }

  function Magnitude(n: int): nat {
    if n < 0 then -n else n
  }

  // Division rounds towards zero: what remains is smaller than the divisor and has the sign of a.
  function Quotient(a: int, b: int): (q: int)
    requires b != 0
    ensures Magnitude(a - b * q) < Magnitude(b) && (a - b * q == 0 || (a - b * q < 0 <==> a < 0))
  {
    var n, m := Magnitude(a), Magnitude(b);
    var q := n / m;
    Remains(n, m);
    if (a < 0) == (b < 0) then
      assert b * q == if b < 0 then -(m * q) else m * q;
      q
    else
      assert b * -q == if b < 0 then m * q else -(m * q);
      -q
  }

  lemma Remains(n: nat, m: nat)
    requires m > 0
    ensures 0 <= n - m * (n / m) < m
  {
    assert n == m * (n / m) + n % m;
  }
}
