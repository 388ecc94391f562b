/**
 * The two number systems an amount passes through: JavaScript doubles and
 * PostgreSQL's 32-bit integer.
 */
module Numbers {

  const INT4_MAX: nat := 0x7fff_ffff
  const SAFE: nat := 0x20_0000_0000_0000  // 2^53

  // The double nearest to the integer n, ties to even: 53 significant bits.
  function Double(n: nat): nat {
    if n <= SAFE then n else Round(n, false, false)
  }

  // Drop low bits until 53 are left. `half` is the highest dropped bit, `rest`
  // says whether any lower one was set.
  function Round(m: nat, half: bool, rest: bool): nat {
    if m < SAFE then
      if half && (rest || m % 2 == 1) then m + 1 else m
    else 2 * Round(m / 2, m % 2 == 1, half || rest)
  }

  lemma {:induction false} RoundLarge(m: nat, half: bool, rest: bool)
    requires m >= SAFE / 2
    ensures Round(m, half, rest) >= SAFE / 2
    ensures m >= SAFE ==> Round(m, half, rest) >= SAFE
  {
    if m >= SAFE { RoundLarge(m / 2, m % 2 == 1, half || rest); }
  }

  // Nothing beyond 2^53 is rounded back below it.
  lemma DoubleStaysLarge(n: nat)
    requires n > SAFE
    ensures Double(n) >= SAFE
  {
    RoundLarge(n, false, false);
  }

  lemma DoubleFloor(n: nat)
    ensures n <= SAFE ==> Double(n) == n
    ensures n >= SAFE ==> Double(n) >= SAFE
  {
    if n > SAFE { DoubleStaysLarge(n); }
  }

  // `Number(id)` keeps 1..n apart exactly up to 2^53.
  lemma NumberInjectiveIff(n: nat)
    ensures (forall i: nat, j: nat :: 1 <= i < j <= n ==> Double(i) != Double(j)) <==> n <= SAFE
  {
    if n > SAFE {
      assert Round(SAFE + 1, false, false) == 2 * Round(SAFE / 2, true, false) == SAFE;
      assert Double(SAFE + 1) == Double(SAFE);
    }
  }
}
