/**
 31-bit SRT sequence numbers.  The source masks 32-bit words; on integers the
 mask is the Euclidean remainder modulo 2^31, so every function below is total
 on `int` and agrees with the source on every 32-bit input.
 */
module Serial {

  const SPACE: int := 0x8000_0000
  const HALF: int := 0x4000_0000

  /** A sequence number already reduced to the 31-bit space. */
  predicate InSpace(s: int) {
    0 <= s < SPACE
  }

  function Normalize(s: int): int {
    s % SPACE
  }

  /** Signed distance from `b` to `a` the short way round, in `[-2^30, 2^30)`. */
  function Diff(a: int, b: int): int {
    var d := (a - b) % SPACE;
    if d >= HALF then d - SPACE else d
  }

  predicate After(a: int, b: int) {
    Diff(a, b) > 0
  }

  function Next(s: int): int {
    (s + 1) % SPACE
  }

  function Prev(s: int): int {
    (s - 1) % SPACE
  }

  /** The ACK field names the first sequence still owed; this is the last one acknowledged. */
  function LastAcked(field: int): int {
    Prev(Normalize(field))
  }

  /** Serial addition. */
  function Advance(s: int, k: int): int {
    (s + k) % SPACE
  }

  /** Serial "greater than" as section 3.2 of RFC 1982 defines it, with SERIAL_BITS = 31. */
  predicate RfcGreater(a: int, b: int) {
    (a < b && b - a > HALF) || (a > b && a - b < HALF)
  }

  /** `After` is the RFC 1982 order on reduced numbers. */
  lemma AfterIsRfc1982(a: int, b: int)
    requires InSpace(a) && InSpace(b)
    ensures After(a, b) <==> RfcGreater(a, b)
  {
    if a < b {
      Wrap(a - b, 1);
    }
  }

  /** Adding whole turns does not change a residue. */
  lemma Wrap(x: int, k: int)
    requires 0 <= x + k * SPACE < SPACE
    ensures x % SPACE == x + k * SPACE
  {
    assert x == -k * SPACE + (x + k * SPACE);
  }

  /** `Diff` is the one representative of `a - b` in the half-open band. */
  lemma DiffIsTheShortWay(a: int, b: int)
    ensures -HALF <= Diff(a, b) < HALF
    ensures Advance(b, Diff(a, b)) == Normalize(a)
    ensures forall e | -HALF <= e < HALF && Advance(b, e) == Normalize(a) :: e == Diff(a, b)
  {
    var q := (a - b) / SPACE;
    var d := (a - b) % SPACE;
    assert a - b == q * SPACE + d;
    SameResidue(b + d, a, q);
    if d >= HALF {
      SameResidue(b + d - SPACE, a, q + 1);
    }
    forall e | -HALF <= e < HALF && Advance(b, e) == Normalize(a)
      ensures e == Diff(a, b)
    {
      var m := (b + e) / SPACE - a / SPACE;
      assert (b + e) - a == m * SPACE;
      assert e == (a - b) + m * SPACE == d + (q + m) * SPACE;
    }
  }

  lemma SameResidue(x: int, y: int, k: int)
    requires y - x == k * SPACE
    ensures x % SPACE == y % SPACE
  {
    assert y == x + k * SPACE;
    assert y == (x / SPACE + k) * SPACE + x % SPACE;
    assert 0 <= x % SPACE < SPACE;
    assert y == (y / SPACE) * SPACE + y % SPACE;
    assert ((x / SPACE + k) - y / SPACE) * SPACE == y % SPACE - x % SPACE;
  }

  /** A difference is the distance plus whole turns. */
  lemma DiffTurns(a: int, b: int) returns (k: int)
    ensures a - b == Diff(a, b) + k * SPACE
  {
    k := (a - b) / SPACE + if (a - b) % SPACE >= HALF then 1 else 0;
  }

  /** Whatever in the band differs from `a - b` by whole turns is the distance. */
  lemma DiffFromTurns(a: int, b: int, e: int, k: int)
    requires a - b == e + k * SPACE && -HALF <= e < HALF
    ensures Diff(a, b) == e
  {
    if e >= 0 {
      SameResidue(e, a - b, k);
    } else {
      SameResidue(e + SPACE, a - b, k - 1);
    }
  }

  /** The distance is antisymmetric except at exactly half the space, where both directions read as behind. */
  lemma AntisymmetricExceptAtHalf(a: int, b: int)
    ensures Diff(a, b) == -Diff(b, a) <==> (a - b) % SPACE != HALF
    ensures (a - b) % SPACE == HALF ==> Diff(a, b) == Diff(b, a) == -HALF && !After(a, b) && !After(b, a)
  {
    var d := (a - b) % SPACE;
    var q := (a - b) / SPACE;
    assert b - a == -q * SPACE - d;
    if d == 0 {
      SameResidue(0, b - a, -q);
    } else {
      SameResidue(SPACE - d, b - a, -q - 1);
    }
  }

  /** The concrete pair that breaks antisymmetry. */
  lemma HalfSpaceBreaksAntisymmetry()
    ensures Diff(HALF, 0) == -HALF && Diff(0, HALF) == -HALF && Diff(HALF, 0) != -Diff(0, HALF)
  {
  }

  lemma NextAndPrevInvert(s: int)
    requires InSpace(s)
    ensures InSpace(Next(s)) && InSpace(Prev(s))
    ensures Prev(Next(s)) == s && Next(Prev(s)) == s
    ensures Diff(Next(s), s) == 1
  {
    DiffIsTheShortWay(Next(s), s);
  }

  /** One walk step moves one closer to every sequence strictly ahead. */
  lemma NextClosesTheGap(a: int, s: int)
    requires InSpace(a) && InSpace(s) && After(a, s)
    ensures Diff(a, Next(s)) == Diff(a, s) - 1
  {
    var k := DiffTurns(a, s);
    DiffFromTurns(a, Next(s), Diff(a, s) - 1, if s + 1 == SPACE then k + 1 else k);
  }

  lemma AdvanceDiff(s: int, k: int)
    requires -HALF <= k < HALF
    ensures InSpace(Advance(s, k)) && Diff(Advance(s, k), s) == k
  {
    var a := Advance(s, k);
    DiffIsTheShortWay(a, s);
  }

  lemma AdvanceByDiff(a: int, s: int)
    requires InSpace(a)
    ensures Advance(s, Diff(a, s)) == a
  {
    DiffIsTheShortWay(a, s);
  }
}
