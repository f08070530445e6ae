/**
 The two-state (value, velocity) Kalman filter behind the smoothed RTT, over
 exact reals.  `Step` is the transition the source computes in gain form; the
 lemmas tie it to the information form of the same estimator and carry the
 covariance invariant over every measurement sequence.
 */
module Kalman {

  datatype Config = Config(qValue: real, qVelocity: real, r: real) {
    predicate Positive() {
      qValue > 0.0 && qVelocity > 0.0 && r > 0.0
    }
  }

  /** The settings the RTT tracker uses. */
  const RTT_CONFIG := Config(0.5, 0.1, 2.0)

  const TINY := 0.000000000001

  /** Covariance matrix, row by row. */
  datatype Cov = Cov(p00: real, p01: real, p10: real, p11: real) {
    function Det(): real {
      p00 * p11 - p01 * p10
    }

    predicate SymmetricPositiveDefinite() {
      p01 == p10 && p00 > 0.0 && p11 > 0.0 && Det() > 0.0
    }
  }

  datatype State = State(x: real, v: real, p: Cov, initialized: bool)

  /** A measurement is a number, or one of the values the filter refuses. */
  datatype Measurement = Finite(z: real) | NotFinite

  const ZERO := State(0.0, 0.0, Cov(0.0, 0.0, 0.0, 0.0), false)

  function PredictCov(c: Config, p: Cov): Cov {
    Cov(p.p00 + p.p10 + p.p01 + p.p11 + c.qValue, p.p01 + p.p11, p.p10 + p.p11, p.p11 + c.qVelocity)
  }

  /** The prediction moved by a residual `y` with gains `k0` and `k1`. */
  function WithGain(xp: real, vp: real, pp: Cov, y: real, k0: real, k1: real): State {
    State(xp + k0 * y, vp + k1 * y,
          Cov((1.0 - k0) * pp.p00, (1.0 - k0) * pp.p01, pp.p10 - k1 * pp.p00, pp.p11 - k1 * pp.p01),
          true)
  }

  /** The update half, in gain form: `xp`, `vp` and `pp` are the prediction. */
  function Correct(c: Config, xp: real, vp: real, pp: Cov, z: real): State
    requires pp.p00 + c.r != 0.0
  {
    WithGain(xp, vp, pp, z - xp, pp.p00 / (pp.p00 + c.r), pp.p10 / (pp.p00 + c.r))
  }

  function Abs(x: real): real {
    if x < 0.0 then -x else x
  }

  function Step(c: Config, s: State, m: Measurement): State {
    if m.NotFinite? then
      s
    else if !s.initialized then
      State(m.z, 0.0, Cov(c.r, 0.0, 0.0, c.r), true)
    else
      var pp := PredictCov(c, s.p);
      if Abs(pp.p00 + c.r) < TINY then s else Correct(c, s.x + s.v, s.v, pp, m.z)
  }

  function Run(c: Config, ms: seq<Measurement>): State {
    if ms == [] then ZERO else Step(c, Run(c, ms[..|ms| - 1]), ms[|ms| - 1])
  }

  /** What holds between updates: a proper covariance no wider in value than the measurement noise. */
  predicate Inv(c: Config, s: State) {
    s.initialized ==> s.p.SymmetricPositiveDefinite() && s.p.p00 <= c.r
  }

  // ----- prediction -----

  /** `F P F' + Q` of a positive definite matrix is positive definite. */
  lemma PredictKeepsPositiveDefinite(c: Config, p: Cov)
    requires c.Positive() && p.SymmetricPositiveDefinite()
    ensures PredictCov(c, p).SymmetricPositiveDefinite()
    ensures PredictCov(c, p).Det() > p.Det()
  {
    PredictedDeterminant(p.p00, p.p01, p.p11, c.qValue, c.qVelocity);
  }

  lemma ShiftedDeterminant(a: real, b: real, d: real)
    ensures (a + b + b + d) * d == (a * d - b * b) + (b + d) * (b + d)
  {
  }

  lemma GrownProduct(e: real, d: real, q: real, w: real)
    requires e > 0.0 && d > 0.0 && q > 0.0 && w > 0.0
    ensures (e + q) * (d + w) > e * d
  {
    Pos(e, w);
    Pos(q, d);
    Pos(q, w);
    assert (e + q) * (d + w) == e * d + e * w + q * d + q * w;
  }

  /** The prediction over plain numbers: the value variance stays positive and the determinant grows. */
  lemma PredictedDeterminant(a: real, b: real, d: real, q: real, w: real)
    requires d > 0.0 && a * d - b * b > 0.0 && q > 0.0 && w > 0.0
    ensures a + b + b + d > 0.0
    ensures (a + b + b + d + q) * (d + w) - (b + d) * (b + d) > a * d - b * b
  {
    var e := a + b + b + d;
    ShiftedDeterminant(a, b, d);
    Square(b + d);
    FactorPositive(e, d);
    GrownProduct(e, d, q, w);
  }

  lemma Square(a: real)
    ensures a * a >= 0.0
  {
    if a < 0.0 {
      assert a * a == (-a) * (-a);
    }
  }

  lemma Pos(a: real, b: real)
    requires a > 0.0 && b > 0.0
    ensures a * b > 0.0
  {
  }

  // ----- correction -----

  /** `n` is `p` after a correction with noise `r`, written without the gain. */
  predicate Corrects(n: Cov, p: Cov, r: real) {
    var s := p.p00 + r;
    n.p00 * s == r * p.p00 && n.p01 * s == r * p.p01 && n.p10 * s == r * p.p01 && n.p11 * s == p.p11 * s - p.p01 * p.p01
  }

  lemma ScaledCell(q: real, p: real, k: real, s: real, t: real)
    requires k * s == t
    ensures (q - k * p) * s == q * s - t * p
  {
    assert (k * p) * s == (k * s) * p;
  }

  lemma ShrunkCell(q: real, k: real, a: real, r: real)
    requires k * (a + r) == a
    ensures ((1.0 - k) * q) * (a + r) == r * q
  {
    ScaledCell(q, q, k, a + r, a);
    assert (1.0 - k) * q == q - k * q;
  }

  /** The corrected covariance in closed form, without the gain. */
  lemma CorrectClosedForm(c: Config, xp: real, vp: real, pp: Cov, z: real)
    requires c.Positive() && pp.SymmetricPositiveDefinite()
    ensures pp.p00 + c.r > 0.0
    ensures Corrects(Correct(c, xp, vp, pp, z).p, pp, c.r)
  {
    var s := pp.p00 + c.r;
    var k0, k1 := pp.p00 / s, pp.p10 / s;
    ClosedForm(WithGain(xp, vp, pp, z - xp, k0, k1).p, pp, c.r, k0, k1);
  }

  lemma ClosedForm(n: Cov, p: Cov, r: real, k0: real, k1: real)
    requires p.p00 + r != 0.0 && p.p01 == p.p10 && k0 == p.p00 / (p.p00 + r) && k1 == p.p10 / (p.p00 + r)
    requires n == Cov((1.0 - k0) * p.p00, (1.0 - k0) * p.p01, p.p10 - k1 * p.p00, p.p11 - k1 * p.p01)
    ensures Corrects(n, p, r)
  {
    var s := p.p00 + r;
    assert k0 * s == p.p00 && k1 * s == p.p01;
    ShrunkCell(p.p00, k0, p.p00, r);
    ShrunkCell(p.p01, k0, p.p00, r);
    ScaledCell(p.p10, p.p00, k1, s, p.p01);
    ScaledCell(p.p11, p.p01, k1, s, p.p01);
    assert p.p01 * s - p.p01 * p.p00 == r * p.p01;
  }

  lemma CrossProducts(n00: real, n01: real, n10: real, n11: real, s: real)
    ensures ((n00 * n11 - n01 * n10) * s) * s == (n00 * s) * (n11 * s) - (n01 * s) * (n10 * s)
  {
    assert (n00 * s) * (n11 * s) == (n00 * n11) * (s * s);
    assert (n01 * s) * (n10 * s) == (n01 * n10) * (s * s);
  }

  lemma ScaledDeterminant(a: real, b: real, d: real, r: real)
    ensures (r * a) * (d * (a + r) - b * b) - (r * b) * (r * b) == (r * (a * d - b * b)) * (a + r)
  {
    var b2, s := b * b, a + r;
    assert (r * b) * (r * b) == r * (r * b2);
    assert (r * a) * (d * s - b2) == r * (a * (d * s - b2));
    assert a * (d * s - b2) - r * b2 == (a * d) * s - s * b2;
    assert (a * d) * s - s * b2 == (a * d - b2) * s;
  }

  /** The determinant shrinks by exactly `r / s`, so it stays positive. */
  lemma CorrectedDeterminant(n: Cov, p: Cov, r: real)
    requires p.p00 + r != 0.0 && p.p01 == p.p10 && Corrects(n, p, r)
    ensures n.Det() * (p.p00 + r) == r * p.Det()
  {
    var s := p.p00 + r;
    CrossProducts(n.p00, n.p01, n.p10, n.p11, s);
    ScaledDeterminant(p.p00, p.p01, p.p11, r);
    CancelFactor(n.Det() * s, r * p.Det(), s);
  }

  lemma CancelFactor(a: real, b: real, s: real)
    requires s != 0.0 && a * s == b * s
    ensures a == b
  {
    assert (a - b) * s == 0.0;
  }

  lemma FactorPositive(a: real, b: real)
    requires b > 0.0 && a * b > 0.0
    ensures a > 0.0
  {
  }

  /** The corrected covariance is positive definite, and its value variance stays below `r`. */
  lemma CorrectKeepsPositiveDefinite(c: Config, xp: real, vp: real, pp: Cov, z: real)
    requires c.Positive() && pp.SymmetricPositiveDefinite()
    ensures pp.p00 + c.r > 0.0
    ensures Correct(c, xp, vp, pp, z).p.SymmetricPositiveDefinite()
    ensures Correct(c, xp, vp, pp, z).p.p00 < c.r
  {
    CorrectClosedForm(c, xp, vp, pp, z);
    CorrectionIsDefinite(Correct(c, xp, vp, pp, z).p, pp, c.r);
  }

  lemma CorrectionIsDefinite(n: Cov, p: Cov, r: real)
    requires r > 0.0 && p.SymmetricPositiveDefinite() && Corrects(n, p, r)
    ensures n.SymmetricPositiveDefinite() && n.p00 < r
  {
    var s := p.p00 + r;
    CorrectedDeterminant(n, p, r);
    Pos(r, p.p00);
    FactorPositive(n.p00, s);
    Pos(r, p.Det());
    FactorPositive(n.Det(), s);
    CancelFactor(n.p01, n.p10, s);
    VarianceSplit(p.p00, p.p01, p.p11, r);
    Pos(p.p11, r);
    FactorPositive(n.p11, s);
    Pos(r, r);
    assert (r - n.p00) * s == r * r;
    FactorPositive(r - n.p00, s);
  }

  lemma VarianceSplit(a: real, b: real, d: real, r: real)
    ensures d * (a + r) - b * b == (a * d - b * b) + d * r
  {
  }

  // ----- the information form -----

  function Inverse(p: Cov): Cov
    requires p.Det() != 0.0
  {
    Cov(p.p11 / p.Det(), -(p.p01 / p.Det()), -(p.p10 / p.Det()), p.p00 / p.Det())
  }

  /** `Inverse` is the matrix inverse. */
  lemma InverseIsInverse(p: Cov)
    requires p.Det() != 0.0
    ensures var q := Inverse(p);
            p.p00 * q.p00 + p.p01 * q.p10 == 1.0 && p.p00 * q.p01 + p.p01 * q.p11 == 0.0
            && p.p10 * q.p00 + p.p11 * q.p10 == 0.0 && p.p10 * q.p01 + p.p11 * q.p11 == 1.0
  {
    var i := 1.0 / p.Det();
    assert p.Det() * i == 1.0;
    assert p.p11 / p.Det() == p.p11 * i && p.p10 / p.Det() == p.p10 * i;
    assert p.p01 / p.Det() == p.p01 * i && p.p00 / p.Det() == p.p00 * i;
    assert p.p00 * (p.p11 * i) - p.p01 * (p.p10 * i) == p.Det() * i;
    assert p.p11 * (p.p00 * i) - p.p10 * (p.p01 * i) == p.Det() * i;
  }

  lemma DivEq(a: real, b: real, q: real)
    requires b != 0.0 && q * b == a
    ensures a / b == q
  {
  }

  /**
   Posterior precision is prior precision plus `1/r` in the value entry and
   nothing anywhere else: the covariance half of the textbook information update.
   */
  lemma PrecisionAdds(c: Config, xp: real, vp: real, pp: Cov, z: real)
    requires c.Positive() && pp.SymmetricPositiveDefinite()
    ensures pp.p00 + c.r > 0.0
    ensures var n := Correct(c, xp, vp, pp, z).p;
            n.SymmetricPositiveDefinite()
            && Inverse(n) == Cov(Inverse(pp).p00 + 1.0 / c.r, Inverse(pp).p01, Inverse(pp).p10, Inverse(pp).p11)
  {
    CorrectKeepsPositiveDefinite(c, xp, vp, pp, z);
    CorrectClosedForm(c, xp, vp, pp, z);
    PrecisionEntries(Correct(c, xp, vp, pp, z).p, pp, c.r);
  }

  /** The same over plain matrices: what a correction means for the inverse. */
  lemma PrecisionEntries(n: Cov, p: Cov, r: real)
    requires r > 0.0 && p.SymmetricPositiveDefinite() && n.SymmetricPositiveDefinite() && Corrects(n, p, r)
    ensures Inverse(n) == Cov(Inverse(p).p00 + 1.0 / r, Inverse(p).p01, Inverse(p).p10, Inverse(p).p11)
  {
    var s, dn, dp := p.p00 + r, n.Det(), p.Det();
    CorrectedDeterminant(n, p, r);
    SameRatio(n.p00, dn, p.p00, dp, s, r);
    SameRatio(n.p01, dn, p.p01, dp, s, r);
    VarianceSplit(p.p00, p.p01, p.p11, r);
    PrecisionGain(n.p11, dn, p.p11, dp, s, r);
  }

  lemma SameRatio(n: real, dn: real, p: real, dp: real, s: real, r: real)
    requires s != 0.0 && dn != 0.0 && dp != 0.0
    requires n * s == r * p && dn * s == r * dp
    ensures n / dn == p / dp
  {
    var q := p / dp;
    assert q * dp == p;
    assert (q * dn) * s == r * (q * dp) == n * s;
    CancelFactor(q * dn, n, s);
    DivEq(n, dn, q);
  }

  lemma PrecisionGain(n: real, dn: real, p: real, dp: real, s: real, r: real)
    requires s != 0.0 && dn != 0.0 && dp != 0.0 && r != 0.0
    requires n * s == r * p + dp && dn * s == r * dp
    ensures n / dn == p / dp + 1.0 / r
  {
    var q, w := p / dp, 1.0 / r;
    var k := q + w;
    assert q * dp == p && w * r == 1.0;
    assert (k * dn) * s == k * (dn * s);
    assert k * (r * dp) == r * (q * dp) + (w * r) * dp;
    CancelFactor(k * dn, n, s);
    DivEq(n, dn, k);
  }

  /**
   The mean half of the information update: the posterior mean solves
   `P_new^-1 (x, v) = P_pred^-1 (xp, vp) + (z / r, 0)`.
   */
  lemma InformationForm(c: Config, xp: real, vp: real, pp: Cov, z: real)
    requires c.Positive() && pp.SymmetricPositiveDefinite()
    ensures pp.p00 + c.r > 0.0
    ensures var n := Correct(c, xp, vp, pp, z);
            n.p.SymmetricPositiveDefinite()
            && Inverse(n.p).p00 * n.x + Inverse(n.p).p01 * n.v
               == Inverse(pp).p00 * xp + Inverse(pp).p01 * vp + z / c.r
            && Inverse(n.p).p10 * n.x + Inverse(n.p).p11 * n.v
               == Inverse(pp).p10 * xp + Inverse(pp).p11 * vp
  {
    PrecisionAdds(c, xp, vp, pp, z);
    CorrectedMean(c, xp, vp, pp, z);
    InverseIsInverse(pp);
    var n, t := Correct(c, xp, vp, pp, z), (z - xp) / (pp.p00 + c.r);
    InformationRows(Inverse(n.p), Inverse(pp), n.x, n.v, xp, vp, pp.p00, pp.p01, c.r, z, t);
  }

  /** The mean moves by the scaled residual `t` times the first column of the prediction. */
  lemma CorrectedMean(c: Config, xp: real, vp: real, pp: Cov, z: real)
    requires pp.p00 + c.r != 0.0
    ensures var n, t := Correct(c, xp, vp, pp, z), (z - xp) / (pp.p00 + c.r);
            n.x == xp + pp.p00 * t && n.v == vp + pp.p10 * t && t * (pp.p00 + c.r) == z - xp
  {
    ScaledBy(pp.p00, z - xp, pp.p00 + c.r);
    ScaledBy(pp.p10, z - xp, pp.p00 + c.r);
  }

  lemma InformationRows(q: Cov, l: Cov, x: real, v: real, xp: real, vp: real, a: real, b: real, r: real, z: real,
                        t: real)
    requires r != 0.0 && q == Cov(l.p00 + 1.0 / r, l.p01, l.p10, l.p11)
    requires x == xp + a * t && v == vp + b * t && t * (a + r) == z - xp
    requires a * l.p00 + b * l.p01 == 1.0 && a * l.p10 + b * l.p11 == 0.0
    ensures q.p00 * x + q.p01 * v == l.p00 * xp + l.p01 * vp + z / r
    ensures q.p10 * x + q.p11 * v == l.p10 * xp + l.p11 * vp
  {
    ValueRow(xp, vp, a, b, l.p00, l.p01, r, z, t);
    VelocityRow(xp, vp, a, b, l.p10, l.p11, t);
  }

  lemma ScaledBy(p: real, y: real, s: real)
    requires s != 0.0
    ensures (p / s) * y == p * (y / s)
  {
    var a, b := p / s, y / s;
    assert a * s == p && b * s == y;
    assert a * (b * s) == (a * s) * b;
  }

  lemma ValueRow(xp: real, vp: real, a: real, b: real, l0: real, l1: real, r: real, z: real, t: real)
    requires r != 0.0 && l0 * a + l1 * b == 1.0 && t * (a + r) == z - xp
    ensures (l0 + 1.0 / r) * (xp + a * t) + l1 * (vp + b * t) == l0 * xp + l1 * vp + z / r
  {
    var w := 1.0 / r;
    assert w * r == 1.0;
    DivEq(z, r, w * z);
    assert t * (l0 * a + l1 * b) == t * (w * r);
    assert w * (t * (a + r)) == w * (z - xp);
  }

  lemma VelocityRow(xp: real, vp: real, a: real, b: real, l0: real, l1: real, t: real)
    requires l0 * a + l1 * b == 0.0
    ensures l0 * (xp + a * t) + l1 * (vp + b * t) == l0 * xp + l1 * vp
  {
    assert t * (l0 * a + l1 * b) == 0.0;
  }

  // ----- whole runs -----

  /** Every step keeps the invariant, whatever the measurement. */
  lemma StepKeepsInv(c: Config, s: State, m: Measurement)
    requires c.Positive() && Inv(c, s)
    ensures Inv(c, Step(c, s, m))
  {
    if m.Finite? && s.initialized {
      PredictKeepsPositiveDefinite(c, s.p);
      CorrectKeepsPositiveDefinite(c, s.x + s.v, s.v, PredictCov(c, s.p), m.z);
    } else if m.Finite? {
      Pos(c.r, c.r);
    }
  }

  /** In every reachable state the covariance is symmetric, positive definite and at most `r` in value. */
  lemma {:induction false} RunKeepsInv(c: Config, ms: seq<Measurement>)
    requires c.Positive()
    ensures Inv(c, Run(c, ms))
  {
    if ms != [] {
      RunKeepsInv(c, ms[..|ms| - 1]);
      StepKeepsInv(c, Run(c, ms[..|ms| - 1]), ms[|ms| - 1]);
    }
  }

  /** The value gain the next measurement will be weighted with. */
  function Gain(c: Config, s: State): real
    requires PredictCov(c, s.p).p00 + c.r != 0.0
  {
    PredictCov(c, s.p).p00 / (PredictCov(c, s.p).p00 + c.r)
  }

  /**
   After any run, the next number always moves the estimate: the small-denominator
   exit is dead once `r` is at least that small, the value gain is strictly between
   0 and 1, and the new value is that convex combination of prediction and measurement.
   */
  lemma NextValueInterpolates(c: Config, ms: seq<Measurement>, z: real)
    requires c.Positive() && c.r >= TINY && Run(c, ms).initialized
    ensures Abs(PredictCov(c, Run(c, ms).p).p00 + c.r) >= TINY
    ensures var s := Run(c, ms);
            PredictCov(c, s.p).p00 + c.r != 0.0 && 0.0 < Gain(c, s) < 1.0
            && Between(s.x + s.v, Step(c, s, Finite(z)).x, z, Gain(c, s))
  {
    RunKeepsInv(c, ms);
    StepInterpolates(c, Run(c, ms), z);
  }

  lemma StepInterpolates(c: Config, s: State, z: real)
    requires c.Positive() && c.r >= TINY && s.initialized && Inv(c, s)
    ensures Abs(PredictCov(c, s.p).p00 + c.r) >= TINY
    ensures PredictCov(c, s.p).p00 + c.r != 0.0 && 0.0 < Gain(c, s) < 1.0
    ensures Between(s.x + s.v, Step(c, s, Finite(z)).x, z, Gain(c, s))
  {
    assert PredictCov(c, s.p).p00 > 0.0 by {
      PredictKeepsPositiveDefinite(c, s.p);
    }
    StepMoves(c, s, z);
    GainBounds(PredictCov(c, s.p).p00, c.r);
    Interpolates(s.x + s.v, z, Gain(c, s));
  }

  lemma StepMoves(c: Config, s: State, z: real)
    requires s.initialized && c.r >= TINY && PredictCov(c, s.p).p00 > 0.0
    ensures Abs(PredictCov(c, s.p).p00 + c.r) >= TINY
    ensures Step(c, s, Finite(z)).x == s.x + s.v + Gain(c, s) * (z - (s.x + s.v))
  {
  }

  /** `n` is the mix of `xp` and `z` with weight `k`, and lies strictly inside them when they differ. */
  predicate Between(xp: real, n: real, z: real, k: real) {
    && n == (1.0 - k) * xp + k * z
    && (xp < z ==> xp < n < z)
    && (z < xp ==> z < n < xp)
  }

  lemma GainBounds(a: real, r: real)
    requires a > 0.0 && r > 0.0
    ensures 0.0 < a / (a + r) < 1.0
  {
    var k := a / (a + r);
    assert k * (a + r) == a;
    FactorPositive(k, a + r);
    FactorPositive(1.0 - k, a + r);
  }

  lemma Interpolates(xp: real, z: real, k: real)
    requires 0.0 < k < 1.0
    ensures Between(xp, xp + k * (z - xp), z, k)
  {
    var y := z - xp;
    var n := xp + k * (z - xp);
    assert n - xp == k * y;
    assert z - n == y - k * y == (1.0 - k) * y;
    assert n == (1.0 - k) * xp + k * z;
    if y > 0.0 {
      Pos(k, y);
      Pos(1.0 - k, y);
    } else if y < 0.0 {
      Pos(k, -y);
      Pos(1.0 - k, -y);
    }
  }

  lemma RttConfigIsPositive()
    ensures RTT_CONFIG.Positive() && RTT_CONFIG.r >= TINY
  {
  }

  /** The filter object: value, velocity and the four covariance cells are overwritten in place. */
  class KalmanFilter {
    var x: real
    var v: real
    const p: array<real>
    const config: Config
    var initialized: bool

    ghost predicate Valid()
      reads this, p
    {
      p.Length == 4
    }

    ghost function View(): State
      requires Valid()
      reads this, p
    {
      State(x, v, Cov(p[0], p[1], p[2], p[3]), initialized)
    }

    constructor (config: Config)
      ensures Valid() && fresh(p) && this.config == config && View() == ZERO
    {
      this.config := config;
      x, v, initialized := 0.0, 0.0, false;
      p := new real[4](i => 0.0);
    }

    /** The prediction of the covariance, cell by cell. */
    static method Predicted(c: Config, p: Cov) returns (pp: Cov)
      ensures pp == PredictCov(c, p)
    {
      var p00 := p.p00 + p.p10 + p.p01 + p.p11 + c.qValue;
      var p01 := p.p01 + p.p11;
      var p10 := p.p10 + p.p11;
      var p11 := p.p11 + c.qVelocity;
      return Cov(p00, p01, p10, p11);
    }

    /** Gain, mean and covariance of the correction. */
    static method Corrected(c: Config, xPred: real, vPred: real, pp: Cov, z: real) returns (n: State)
      requires pp.p00 + c.r != 0.0
      ensures n == Correct(c, xPred, vPred, pp, z)
    {
      var s := pp.p00 + c.r;
      var k0, k1 := pp.p00 / s, pp.p10 / s;
      return WithGain(xPred, vPred, pp, z - xPred, k0, k1);
    }

    /** Overwrite every cell of the filter. */
    method Store(s: State)
      requires Valid()
      modifies this, p
      ensures Valid() && View() == s
    {
      x, v, initialized := s.x, s.v, s.initialized;
      p[0], p[1], p[2], p[3] := s.p.p00, s.p.p01, s.p.p10, s.p.p11;
    }

    method Update(m: Measurement)
      requires Valid()
      modifies this, p
      ensures Valid() && View() == Step(config, old(View()), m)
    {
      if m.NotFinite? {
        return;
      }
      if !initialized {
        Store(State(m.z, 0.0, Cov(config.r, 0.0, 0.0, config.r), true));
        return;
      }
      var pp := Predicted(config, Cov(p[0], p[1], p[2], p[3]));
      if Abs(pp.p00 + config.r) < TINY {
        return;
      }
      var n := Corrected(config, x + v, v, pp, m.z);
      Store(n);
    }

    method Reset()
      requires Valid()
      modifies this, p
      ensures Valid() && View() == ZERO
    {
      x, v := 0.0, 0.0;
      p[0], p[1], p[2], p[3] := 0.0, 0.0, 0.0, 0.0;
      initialized := false;
    }
  }
}
