/** The sampling decision of a root run, with the rounding of the quotient it compares. */
module Sampling {

  // Python divides an integer by a float after rounding the integer to 53 significant bits, halves to
  // even; dividing by 2^64 is then exact.
  const MANTISSA: nat := 0x20_0000_0000_0000
  const WHOLE: nat := 0x1_0000_0000_0000_0000

  // The unit in the last place of a number: the power of two that leaves 53 bits.
  function Unit(digest: nat): (u: nat)
    ensures u >= 1
    ensures digest < MANTISSA * u
    ensures u > 1 ==> MANTISSA * u <= 2 * digest + 1
  {
    if digest < MANTISSA then 1 else 2 * Unit(digest / 2)
  }

  function Rounded(digest: nat): nat {
    var u := Unit(digest);
    var q, rest := digest / u, digest % u;
    (if 2 * rest > u || (2 * rest == u && q % 2 == 1) then q + 1 else q) * u
  }

  // Whether the root run whose hash begins with this number is sampled.
  predicate Sampled(digest: nat, rate: real) {
    Rounded(digest) as real / WHOLE as real < rate
  }

  lemma TopUnit(digest: nat)
    requires WHOLE / 2 <= digest < WHOLE
    ensures Unit(digest) == 2048
  {
    UnitDoubles(digest, 11);
  }

  lemma {:induction false} UnitDoubles(digest: nat, n: nat)
    requires MANTISSA / 2 * Power(n) <= digest < MANTISSA * Power(n)
    ensures Unit(digest) == Power(n)
    decreases n
  {
    if n > 0 {
      UnitDoubles(digest / 2, n - 1);
    }
  }

  function Power(n: nat): nat {
    if n == 0 then 1 else 2 * Power(n - 1)
  }

  /** Rounding moves a number by at most half a unit. */
  lemma RoundedIsNear(digest: nat)
    ensures 2 * Rounded(digest) <= 2 * digest + Unit(digest)
    ensures 2 * digest <= 2 * Rounded(digest) + Unit(digest)
  {
    var u := Unit(digest);
    var q, rest := digest / u, digest % u;
    assert digest == q * u + rest;
    assert (q + 1) * u == q * u + u;
  }

  // How far a number is from a multiple of the unit.
  function Off(digest: nat, m: nat, u: nat): nat {
    if m * u <= digest then digest - m * u else m * u - digest
  }

  /** Rounding is to the nearest multiple of the unit, and of two that are equally near to the even one. The
      unit is the power of two that leaves a number of at most 53 bits, and exactly 53 if it is not 1. */
  lemma RoundedIsHalfEven(digest: nat, m: nat) returns (q: nat, n: nat)
    ensures Rounded(digest) == q * Unit(digest)
    ensures Off(digest, q, Unit(digest)) < Off(digest, m, Unit(digest)) || q == m
            || (Off(digest, q, Unit(digest)) == Off(digest, m, Unit(digest)) && q % 2 == 0)
    ensures Unit(digest) == Power(n)
    ensures digest < 0x20_0000_0000_0000 * Unit(digest)
    ensures Unit(digest) > 1 ==> 0x10_0000_0000_0000 * Unit(digest) <= digest
  {
    hide Unit, Rounded, Off;
    n := UnitIsPower(digest);
    var f, rest;
    f, rest, q := Parts(digest);
    NearestMultiple(digest, Unit(digest), f, rest, q, m);
  }

  lemma Parts(digest: nat) returns (f: nat, rest: nat, q: nat)
    ensures var u := Unit(digest);
            && rest < u && digest == f * u + rest && Rounded(digest) == q * u
            && q == if 2 * rest > u || (2 * rest == u && f % 2 == 1) then f + 1 else f
  {
    hide Unit;
    var u := Unit(digest);
    f, rest := digest / u, digest % u;
    q := if 2 * rest > u || (2 * rest == u && f % 2 == 1) then f + 1 else f;
  }

  lemma NearestMultiple(digest: nat, u: nat, f: nat, rest: nat, q: nat, m: nat)
    requires rest < u && digest == f * u + rest
    requires q == if 2 * rest > u || (2 * rest == u && f % 2 == 1) then f + 1 else f
    ensures Off(digest, q, u) < Off(digest, m, u) || q == m || (Off(digest, q, u) == Off(digest, m, u) && q % 2 == 0)
  {
    hide Off;
    OffIs(digest, q, u, q * u);
    OffIs(digest, m, u, m * u);
    Multiples(f, m, u);
    Nearer(digest, u, f, rest, q, m, f * u, (f + 1) * u, m * u);
  }

  lemma Multiples(f: nat, m: nat, u: nat)
    ensures (f + 1) * u == f * u + u
    ensures m < f ==> m * u + u <= f * u
    ensures m > f + 1 ==> f * u + 2 * u <= m * u
  {
    if m < f {
      MultipleOrder(m + 1, f, u);
    } else if m > f + 1 {
      MultipleOrder(f + 2, m, u);
    }
  }

  // The same with the multiples below, above and at m for numbers.
  lemma Nearer(digest: nat, u: nat, f: nat, rest: nat, q: nat, m: nat, below: nat, above: nat, at: nat)
    requires rest < u && digest == below + rest && above == below + u
    requires q == if 2 * rest > u || (2 * rest == u && f % 2 == 1) then f + 1 else f
    requires m < f ==> at + u <= below
    requires m > f + 1 ==> above + u <= at
    requires (m == f ==> at == below) && (m == f + 1 ==> at == above)
    ensures var near := if q == f then rest else u - rest;
            var off := if at <= digest then digest - at else at - digest;
            near < off || q == m || (near == off && q % 2 == 0)
  {
  }

  lemma OffIs(digest: nat, m: nat, u: nat, at: nat)
    requires at == m * u
    ensures Off(digest, m, u) == if at <= digest then digest - at else at - digest
  {
  }

  lemma MultipleOrder(a: nat, b: nat, u: nat)
    requires a <= b
    ensures a * u <= b * u
  {
  }

  lemma {:induction false} UnitIsPower(digest: nat) returns (n: nat)
    ensures Unit(digest) == Power(n)
  {
    if digest < MANTISSA {
      n := 0;
    } else {
      n := UnitIsPower(digest / 2);
      n := n + 1;
    }
  }

  /** Raising the sample rate never drops a run, and rate 0 keeps none. Rate 1 keeps exactly the runs
      below the top 1024 of the 2^64 digests, which round to a quotient of 1. */
  lemma SamplingIsMonotone(digest: nat, lower: real, higher: real)
    requires digest < WHOLE && lower <= higher
    ensures Sampled(digest, lower) ==> Sampled(digest, higher)
    ensures Sampled(digest, lower) <==> Rounded(digest) as real < lower * 18446744073709551616.0
    ensures !Sampled(digest, 0.0)
    ensures Sampled(digest, 1.0) <==> digest < WHOLE - 1024
  {
    assert WHOLE as real > 0.0;
    RoundedBelow(digest);
    assert Sampled(digest, 1.0) <==> Rounded(digest) < WHOLE;
  }

  lemma RoundedBelow(digest: nat)
    requires digest < WHOLE
    ensures Rounded(digest) < WHOLE <==> digest < WHOLE - 1024
  {
    if digest < WHOLE / 2 {
      RoundedIsNear(digest);
      UnitBelow(digest);
    } else {
      TopUnit(digest);
      var q := digest / 2048;
      assert q <= MANTISSA - 1;
    }
  }

  lemma UnitBelow(digest: nat)
    requires digest < WHOLE / 2
    ensures Unit(digest) <= digest + 1
  {
  }
}
