/**
 The segment-index Kalman filter over the reals: position and velocity, with a position measurement.
 The in-place update is proved equal to the matrix form of the filter, whose covariance is shown to
 stay symmetric positive definite on every run.
 */
module KalmanFilter {
  import opened OrderedMap

  const Q00 := 0.15
  const Q11 := 0.25
  const R := 0.8

  datatype Matrix = Matrix(a: real, b: real, c: real, d: real)

  const IDENTITY := Matrix(1.0, 0.0, 0.0, 1.0)

  function Dot(x: real, y: real, z: real, w: real): real {
    x * y + z * w
  }

  function Mul(m: Matrix, n: Matrix): Matrix {
    Matrix(Dot(m.a, n.a, m.b, n.c), Dot(m.a, n.b, m.b, n.d), Dot(m.c, n.a, m.d, n.c), Dot(m.c, n.b, m.d, n.d))
  }

  function Transpose(m: Matrix): Matrix {
    Matrix(m.a, m.c, m.b, m.d)
  }

  function Plus(m: Matrix, n: Matrix): Matrix {
    Matrix(m.a + n.a, m.b + n.b, m.c + n.c, m.d + n.d)
  }

  function Det(m: Matrix): real {
    m.a * m.d - m.b * m.c
  }

  ghost predicate PositiveDefinite(m: Matrix) {
    m.b == m.c && m.a > 0.0 && m.d > 0.0 && Det(m) > 0.0
  }

  // ---- The filter in matrix form

  /** State transition over `dt`: position advances by velocity. */
  function Transition(dt: real): Matrix {
    Matrix(1.0, dt, 0.0, 1.0)
  }

  function Noise(): Matrix {
    Matrix(Q00, 0.0, 0.0, Q11)
  }

  /** F P Ft + Q */
  function PredictedMatrix(p: Matrix, dt: real): Matrix {
    Plus(Mul(Mul(Transition(dt), p), Transpose(Transition(dt))), Noise())
  }

  function InnovationVariance(p: Matrix): real {
    p.a + R
  }

  function PositionGain(p: Matrix): real
    requires InnovationVariance(p) != 0.0
  {
    p.a / InnovationVariance(p)
  }

  function VelocityGain(p: Matrix): real
    requires InnovationVariance(p) != 0.0
  {
    p.c / InnovationVariance(p)
  }

  /** (I - K H) for the gain of prior `p`; H reads the position. */
  function Residual(p: Matrix): Matrix
    requires InnovationVariance(p) != 0.0
  {
    Matrix(1.0 - PositionGain(p), 0.0, -VelocityGain(p), 1.0)
  }

  /** K R Kt */
  function GainNoise(p: Matrix): Matrix
    requires InnovationVariance(p) != 0.0
  {
    var k, v := PositionGain(p), VelocityGain(p);
    Matrix(k * R * k, k * R * v, v * R * k, v * R * v)
  }

  // ---- The filter as the code computes it

  /** `x` after moving at rate `v` for `dt`. */
  function Moved(x: real, v: real, dt: real): real {
    x + dt * v
  }

  function Spread(p: Matrix, dt: real): real {
    p.a + (dt * (p.c + p.b + dt * p.d) + Q00)
  }

  function Predicted(p: Matrix, dt: real): Matrix {
    Matrix(Spread(p, dt), Moved(p.b, p.d, dt), Moved(p.c, p.d, dt), p.d + Q11)
  }

  /** `x` after a correction by `gain` times the innovation. */
  function Nudged(x: real, gain: real, innovation: real): real {
    x + gain * innovation
  }

  function Corrected(p: Matrix): Matrix
    requires InnovationVariance(p) != 0.0
  {
    var k, v := PositionGain(p), VelocityGain(p);
    Matrix(Nudged(p.a, -k, p.a), Nudged(p.b, -k, p.b), Nudged(p.c, -v, p.a), Nudged(p.d, -v, p.b))
  }

  /** The prediction step is the textbook propagation F P Ft + Q. */
  lemma PredictedIsPropagation(p: Matrix, dt: real)
    ensures Predicted(p, dt) == PredictedMatrix(p, dt)
  {
    var fp := Mul(Transition(dt), p);
    assert fp == Matrix(p.a + dt * p.c, p.b + dt * p.d, p.c, p.d);
    assert Mul(fp, Transpose(Transition(dt)))
        == Matrix(p.a + dt * p.c + (p.b + dt * p.d) * dt, p.b + dt * p.d, p.c + p.d * dt, p.d);
    assert (p.b + dt * p.d) * dt == dt * p.b + dt * (dt * p.d);
  }

  lemma PredictedDet(p: Matrix, dt: real)
    requires p.b == p.c
    ensures Det(Predicted(p, dt)) ==
      Det(p) + p.a * Q11 + Q00 * p.d + Q00 * Q11 + dt * dt * p.d * Q11 + 2.0 * dt * p.b * Q11
  {
    var r := Predicted(p, dt);
    var q := dt * p.d;
    assert r.a == p.a + 2.0 * (dt * p.b) + dt * q + Q00;
    assert r.b == p.b + q && r.c == p.b + q && r.d == p.d + Q11;
    assert (dt * q) * p.d == q * q;
    assert (dt * p.b) * p.d == q * p.b;
    calc {
      Det(r);
      (p.a + 2.0 * (dt * p.b) + dt * q + Q00) * (p.d + Q11) - (p.b + q) * (p.b + q);
      p.a * p.d + 2.0 * ((dt * p.b) * p.d) + (dt * q) * p.d + Q00 * p.d
        + p.a * Q11 + 2.0 * (dt * p.b) * Q11 + (dt * q) * Q11 + Q00 * Q11 - (p.b * p.b + 2.0 * (q * p.b) + q * q);
    }
  }

  lemma NonPositiveProduct(x: real, y: real)
    requires x > 0.0 && y <= 0.0
    ensures x * y <= 0.0
  {
  }

  /** The variance of position plus `dt` times velocity. */
  lemma QuadraticPositive(p: Matrix, dt: real)
    requires PositiveDefinite(p)
    ensures p.a + 2.0 * dt * p.b + dt * dt * p.d > 0.0
  {
    var s := p.b + dt * p.d;
    assert s * s >= 0.0;
    assert p.d * (p.a + 2.0 * dt * p.b + dt * dt * p.d) == Det(p) + s * s by {
      assert s * s == p.b * p.b + 2.0 * (p.b * (dt * p.d)) + (dt * p.d) * (dt * p.d);
      assert p.d * (2.0 * dt * p.b) == 2.0 * (p.b * (dt * p.d));
      assert p.d * (dt * dt * p.d) == (dt * p.d) * (dt * p.d);
    }
    if p.a + 2.0 * dt * p.b + dt * dt * p.d <= 0.0 {
      NonPositiveProduct(p.d, p.a + 2.0 * dt * p.b + dt * dt * p.d);
    }
  }

  /** Prediction keeps the covariance positive definite for every time step, and the innovation above R. */
  lemma PredictedPositive(p: Matrix, dt: real)
    requires PositiveDefinite(p)
    ensures PositiveDefinite(Predicted(p, dt)) && InnovationVariance(Predicted(p, dt)) > R
  {
    var r := Predicted(p, dt);
    QuadraticPositive(p, dt);
    var v := p.a + 2.0 * dt * p.b + dt * dt * p.d;
    assert r.a == v + Q00 by { assert dt * (p.b + p.b + dt * p.d) == 2.0 * dt * p.b + dt * dt * p.d; }
    PredictedDet(p, dt);
    assert Det(r) == Det(p) + Q00 * p.d + Q00 * Q11 + v * Q11;
  }

  lemma DivideSelf(x: real, s: real)
    requires s != 0.0
    ensures (x / s) * s == x
  {
  }

  lemma CancelRight(x: real, y: real, s: real)
    requires s != 0.0 && x * s == y * s
    ensures x == y
  {
    assert (x - y) * s == 0.0;
  }

  lemma ProductScaled(x: real, y: real, s: real)
    ensures (x * s) * (y * s) == ((x * y) * s) * s
  {
  }

  lemma DetAlgebra(a: real, b: real, d: real, s: real)
    requires s == a + R
    ensures (R * a) * (d * s - b * b) - (R * b) * (R * b) == ((a * d - b * b) * R) * s
  {
    var x := a * d;
    var y := b * b;
    assert (R * a) * (d * s) == R * (x * s);
    assert (R * a) * y == R * (a * y);
    assert (R * b) * (R * b) == R * (R * y);
    assert (x - y) * s == x * s - y * a - y * R;
  }

  /** One measurement scales the determinant by exactly R / S. */
  lemma CorrectedDet(p: Matrix)
    requires p.b == p.c && InnovationVariance(p) > 0.0
    ensures Det(Corrected(p)) == Det(p) * (R / InnovationVariance(p))
  {
    var s := InnovationVariance(p);
    var k, v := p.a / s, p.b / s;
    DivideSelf(p.a, s);
    DivideSelf(p.b, s);
    DivideSelf(R, s);
    var r := Corrected(p);
    assert r.a * s == R * p.a by { assert (k * p.a) * s == p.a * p.a; }
    assert r.b * s == R * p.b by { assert (k * p.b) * s == p.a * p.b; }
    assert r.d * s == p.d * s - p.b * p.b by { assert (v * p.b) * s == p.b * p.b; }
    assert r.c * s == R * p.b by { assert (v * p.a) * s == p.b * p.a; }
    assert (Det(r) * s) * s == (Det(p) * R) * s by {
      ProductScaled(r.a, r.d, s);
      ProductScaled(r.b, r.c, s);
      assert (R * p.a) * (p.d * s - p.b * p.b) - (R * p.b) * (R * p.b) == (Det(p) * R) * s by {
        DetAlgebra(p.a, p.b, p.d, s);
      }
    }
    CancelRight(Det(r) * s, Det(p) * R, s);
    assert (Det(p) * (R / s)) * s == Det(p) * R;
    CancelRight(Det(r), Det(p) * (R / s), s);
  }

  lemma BelowOne(q: real, s: real, x: real)
    requires s > 0.0 && q * s == x && x < s
    ensures q < 1.0
  {
  }

  lemma Quotient(x: real, s: real) returns (q: real)
    requires s != 0.0
    ensures q == x / s && q * s == x
  {
    q := x / s;
    DivideSelf(x, s);
  }

  lemma AboveZero(q: real, s: real, x: real)
    requires s > 0.0 && q * s == x && x > 0.0
    ensures q > 0.0
  {
    if q <= 0.0 { NonPositiveProduct(s, q); }
  }

  lemma QuotientBounds(x: real, s: real)
    requires 0.0 < x < s
    ensures 0.0 < x / s < 1.0
  {
    var q := Quotient(x, s);
    BelowOne(q, s, x);
    AboveZero(q, s, x);
  }

  lemma SwapQuotient(x: real, y: real, s: real)
    requires s != 0.0
    ensures (x / s) * y == (y / s) * x
  {
    DivideSelf(x, s);
    DivideSelf(y, s);
    assert ((x / s) * y) * s == x * y;
    assert ((y / s) * x) * s == y * x;
    CancelRight((x / s) * y, (y / s) * x, s);
  }

  lemma PositiveDiagonal(m: Matrix)
    requires m.b == m.c && m.a > 0.0 && Det(m) > 0.0
    ensures m.d > 0.0
  {
    assert m.b * m.b >= 0.0;
    if m.d <= 0.0 { NonPositiveProduct(m.a, m.d); }
  }

  /** A measurement keeps the covariance positive definite, with a proper gain and a variance below R. */
  lemma CorrectedPositive(p: Matrix)
    requires PositiveDefinite(p)
    ensures InnovationVariance(p) >= R
    ensures 0.0 < PositionGain(p) < 1.0
    ensures PositiveDefinite(Corrected(p)) && Corrected(p).a < R
  {
    var s := InnovationVariance(p);
    var r := Corrected(p);
    QuotientBounds(p.a, s);
    QuotientBounds(R, s);
    DivideSelf(p.a, s);
    DivideSelf(R, s);
    CorrectedDet(p);
    assert r.a == (p.a / s) * R by {
      assert (p.a / s) * (s - p.a) == p.a - (p.a / s) * p.a;
    }
    assert r.b == r.c by { assert (p.a / s) * p.b == (p.b / s) * p.a by { SwapQuotient(p.a, p.b, s); } }
    PositiveDiagonal(r);
  }

  /** The four entries of the Joseph form, for gains k, v with k s = a, v s = b and s = a + R. */
  lemma JosephA(a: real, k: real, s: real)
    requires s == a + R && k * s == a
    ensures (1.0 - k) * a * (1.0 - k) + k * R * k == a - k * a
  {
    assert k * (k * s) == k * k * a + k * R * k;
  }

  lemma JosephB(a: real, b: real, k: real, v: real, s: real)
    requires s == a + R && k * s == a
    ensures -((1.0 - k) * a * v) + (1.0 - k) * b + k * R * v == b - k * b
  {
    assert v * (k * s) == k * a * v + k * R * v;
  }

  lemma JosephC(a: real, b: real, k: real, v: real, s: real)
    requires s == a + R && v * s == b
    ensures (b - v * a) * (1.0 - k) + v * R * k == b - v * a
  {
    assert k * (v * s) == k * v * a + v * R * k;
  }

  lemma JosephD(a: real, b: real, d: real, v: real, s: real)
    requires s == a + R && v * s == b
    ensures -((b - v * a) * v) + (d - v * b) + v * R * v == d - v * b
  {
    assert v * (v * s) == v * a * v + v * R * v;
  }

  lemma DotScaled(x: real, y: real, w: real)
    ensures Dot(x, y, 0.0, w) == x * y && Dot(y, x, w, 0.0) == y * x
  {
  }

  lemma DotShifted(x: real, y: real, w: real)
    ensures Dot(-x, y, 1.0, w) == w - x * y && Dot(y, -x, w, 1.0) == -(y * x) + w
  {
  }

  /** (I - K H) P */
  lemma ResidualTimes(p: Matrix, k: real, v: real)
    ensures Mul(Matrix(1.0 - k, 0.0, -v, 1.0), p)
         == Matrix((1.0 - k) * p.a, (1.0 - k) * p.b, p.c - v * p.a, p.d - v * p.b)
  {
    DotScaled(1.0 - k, p.a, p.c);
    DotScaled(1.0 - k, p.b, p.d);
    DotShifted(v, p.a, p.c);
    DotShifted(v, p.b, p.d);
  }

  lemma TimesResidual(m: Matrix, k: real, v: real)
    ensures Mul(m, Transpose(Matrix(1.0 - k, 0.0, -v, 1.0)))
         == Matrix(m.a * (1.0 - k), -(m.a * v) + m.b, m.c * (1.0 - k), -(m.c * v) + m.d)
  {
    DotScaled(1.0 - k, m.a, m.b);
    DotScaled(1.0 - k, m.c, m.d);
    DotShifted(v, m.a, m.b);
    DotShifted(v, m.c, m.d);
  }

  /**
   The correction is the Joseph form (I - K H) P (I - K H)t + K R Kt, the symmetric reference the
   shorter in-place subtraction has to agree with.
   */
  lemma CorrectedIsJoseph(p: Matrix)
    requires p.b == p.c && InnovationVariance(p) > 0.0
    ensures Corrected(p) == Plus(Mul(Mul(Residual(p), p), Transpose(Residual(p))), GainNoise(p))
  {
    var s := InnovationVariance(p);
    var k := Quotient(p.a, s);
    var v := Quotient(p.b, s);
    var m := Mul(Residual(p), p);
    ResidualTimes(p, k, v);
    TimesResidual(m, k, v);
    JosephA(p.a, k, s);
    JosephB(p.a, p.b, k, v, s);
    JosephC(p.a, p.b, k, v, s);
    JosephD(p.a, p.b, p.d, v, s);
  }

  // ---- Every run of measurements and restarts

  datatype Filter = Filter(x0: real, x1: real, P: Matrix, lastTime: Option<real>, initialized: bool)

  const FRESH := Filter(0.0, 0.0, IDENTITY, None, false)

  /** A measurement (`None`: not a finite number) with its time in milliseconds, or a reset. */
  datatype Event = Measure(z: Option<real>, at: real) | Restart(z: Option<real>)

  /** The measurement runs prediction and correction, and is not the first, unreadable or out of time. */
  predicate Corrects(f: Filter, e: Event) {
    e.Measure? && e.z.Some? && f.initialized && f.lastTime.Some? && e.at > f.lastTime.value
  }

  function Elapsed(f: Filter, e: Event): real
    requires Corrects(f, e)
  {
    (e.at - f.lastTime.value) / 1000.0
  }

  function Prior(f: Filter, e: Event): Matrix
    requires Corrects(f, e)
  {
    Predicted(f.P, Elapsed(f, e))
  }

  /** The guard for a non-positive innovation variance keeps the prediction. */
  function Updated(f: Filter, e: Event): Filter
    requires Corrects(f, e)
  {
    var prior := Prior(f, e);
    var forecast := Moved(f.x0, f.x1, Elapsed(f, e));
    if InnovationVariance(prior) <= 0.0 then f.(x0 := forecast, P := prior, lastTime := Some(e.at))
    else
      f.(x0 := Nudged(forecast, PositionGain(prior), e.z.value - forecast),
         x1 := Nudged(f.x1, VelocityGain(prior), e.z.value - forecast),
         P := Corrected(prior), lastTime := Some(e.at))
  }

  function Next(f: Filter, e: Event): Filter {
    match e
    case Restart(z) => FRESH.(x0 := z.GetOr(0.0))
    case Measure(None, _) => f
    case Measure(Some(z), at) =>
      if !f.initialized then f.(x0 := z, x1 := 0.0, lastTime := Some(at), initialized := true)
      else if Corrects(f, e) then Updated(f, e)
      else f
  }

  function Run(f: Filter, es: seq<Event>): Filter {
    if es == [] then f else Next(Run(f, es[..|es| - 1]), es[|es| - 1])
  }

  ghost predicate Sound(f: Filter) {
    && PositiveDefinite(f.P) && (f.P == IDENTITY || f.P.a < R)
    && (f.initialized ==> f.lastTime.Some?)
  }

  lemma StepPositive(p: Matrix, dt: real)
    requires PositiveDefinite(p)
    ensures var prior := Predicted(p, dt);
      InnovationVariance(prior) > R && PositiveDefinite(Corrected(prior)) && Corrected(prior).a < R
  {
    PredictedPositive(p, dt);
    CorrectedPositive(Predicted(p, dt));
  }

  lemma UpdatedMatrix(f: Filter, e: Event)
    requires Corrects(f, e) && InnovationVariance(Prior(f, e)) > R
    ensures var r := Updated(f, e);
      r.P == Corrected(Prior(f, e)) && r.initialized && r.lastTime == Some(e.at)
  {
  }

  lemma UpdatedSound(f: Filter, e: Event)
    requires Sound(f) && Corrects(f, e)
    ensures InnovationVariance(Prior(f, e)) > R && Sound(Updated(f, e))
  {
    StepPositive(f.P, Elapsed(f, e));
    UpdatedMatrix(f, e);
  }

  lemma FreshSound(z: Option<real>)
    ensures Sound(FRESH.(x0 := z.GetOr(0.0)))
  {
    assert Det(IDENTITY) == 1.0;
  }

  lemma NextCorrects(f: Filter, e: Event)
    requires Corrects(f, e)
    ensures Next(f, e) == Updated(f, e)
  {
  }

  lemma NextKeeps(f: Filter, e: Event)
    requires e.Measure? && !Corrects(f, e) && (f.initialized ==> f.lastTime.Some?)
    ensures var r := Next(f, e); r.P == f.P && (r.initialized ==> r.lastTime.Some?)
  {
  }

  lemma NextSound(f: Filter, e: Event)
    requires Sound(f)
    ensures Sound(Next(f, e))
  {
    if e.Restart? {
      FreshSound(e.z);
    } else if Corrects(f, e) {
      NextCorrects(f, e);
      UpdatedSound(f, e);
    } else {
      NextKeeps(f, e);
    }
  }

  /**
   Whatever the measurements and the time steps, after every run the covariance is symmetric positive
   definite, the position variance is the initial one or below R, and the next innovation variance is above
   R, so that the guard never acts.
   */
  lemma {:induction false} RunPositive(es: seq<Event>, e: Event)
    ensures var f := Run(FRESH, es);
      && Sound(f) && PositiveDefinite(f.P) && (f.P == IDENTITY || f.P.a < R)
      && (Corrects(f, e) ==> InnovationVariance(Prior(f, e)) > R)
  {
    if es != [] {
      RunPositive(es[..|es| - 1], es[|es| - 1]);
      NextSound(Run(FRESH, es[..|es| - 1]), es[|es| - 1]);
    } else {
      FreshSound(None);
    }
    if Corrects(Run(FRESH, es), e) { UpdatedSound(Run(FRESH, es), e); }
  }

  // ---- Prediction of the next index

  const DEFAULT_MAX_JUMP := 8

  /** `Number(configured) || 8` */
  function MaxJump(configured: nat): (jump: nat)
    ensures jump > 0
  {
    if configured == 0 then DEFAULT_MAX_JUMP else configured
  }

  /** `Number(anchorIndex)`: an absent anchor (`null`) reads as 0, anything else non-numeric as NaN. */
  datatype Anchor = Absent | NotANumber | At(index: real)

  function AnchorValue(a: Anchor): Option<real> {
    match a
    case Absent => Some(0.0)
    case NotANumber => None
    case At(i) => Some(i)
  }

  function Clamp(low: real, high: real, x: real): real {
    if x > high then (if high > low then high else low) else if x > low then x else low
  }

  function NearAnchor(predicted: real, anchor: Anchor, maxJump: real): real {
    match AnchorValue(anchor)
    case None => predicted
    case Some(a) =>
      var delta := predicted - a;
      if delta > maxJump then a + maxJump else if -delta > maxJump then a - maxJump else predicted
  }

  function Bounded(near: real, count: Option<nat>): real {
    if count.Some? && count.value > 0 then Clamp(0.0, (count.value - 1) as real, near)
    else if near > 0.0 then near else 0.0
  }

  function Round(x: real): int {
    (x + 0.5).Floor
  }

  /** `count` is the segment count when it is a positive number; `configured` the jump bound, 0 when unset. */
  function PredictIndex(position: real, velocity: real, lookahead: real, count: Option<nat>,
                        anchor: Anchor, configured: nat): int {
    Round(Bounded(NearAnchor(position + velocity * lookahead, anchor, MaxJump(configured) as real), count))
  }

  /** The prediction stays inside the manifest. */
  lemma PredictInRange(position: real, velocity: real, lookahead: real, n: nat, anchor: Anchor, configured: nat)
    requires n > 0
    ensures 0 <= PredictIndex(position, velocity, lookahead, Some(n), anchor, configured) < n
  {
    var near := NearAnchor(position + velocity * lookahead, anchor, MaxJump(configured) as real);
    assert 0.0 <= Bounded(near, Some(n)) <= (n - 1) as real;
  }

  lemma NearBounds(x: real, a: real, jump: real)
    requires jump >= 0.0
    ensures a - jump <= NearAnchor(x, At(a), jump) <= a + jump
  {
  }

  /** With an anchor inside the manifest, the prediction is at most the jump bound (8 by default) away from it. */
  lemma PredictNearAnchor(position: real, velocity: real, lookahead: real, n: nat, a: nat, configured: nat)
    requires a < n
    ensures var i := PredictIndex(position, velocity, lookahead, Some(n), At(a as real), configured);
      i - a <= MaxJump(configured) && a - i <= MaxJump(configured)
  {
    var jump := MaxJump(configured);
    var near := NearAnchor(position + velocity * lookahead, At(a as real), jump as real);
    NearBounds(position + velocity * lookahead, a as real, jump as real);
    var bounded := Bounded(near, Some(n));
    assert (a as int - jump as int) as real <= bounded <= (a + jump) as real;
  }

  lemma RoundMonotone(x: real, y: real)
    requires x <= y
    ensures Round(x) <= Round(y)
  {
  }

  lemma RoundWhole(n: int)
    ensures Round(n as real) == n
  {
  }

  /** With the anchor read as 0, the bounded prediction is the free one, cut at the jump bound. */
  lemma CutAtJump(x: real, count: Option<nat>, jump: real)
    requires jump >= 0.0
    ensures var free := Bounded(x, count);
      Bounded(NearAnchor(x, Absent, jump), count) == (if free <= jump then free else Bounded(jump, count))
    ensures Bounded(x, count) > jump ==> Bounded(jump, count) == jump
  {
  }

  /**
   A missing anchor is not "no anchor": it cuts the prediction at the jump bound.  So it is harmless
   exactly when the prediction without an anchor is at most that bound.
   */
  lemma AbsentAnchorCuts(position: real, velocity: real, lookahead: real, count: Option<nat>, configured: nat)
    ensures var free := PredictIndex(position, velocity, lookahead, count, NotANumber, configured);
      var cut := PredictIndex(position, velocity, lookahead, count, Absent, configured);
      var jump := MaxJump(configured);
      && cut == (if free <= jump then free else jump)
      && (cut == free <==> free <= jump)
      && 0 <= cut <= jump
  {
    var x, jump := position + velocity * lookahead, MaxJump(configured);
    var free := Bounded(x, count);
    CutAtJump(x, count, jump as real);
    RoundWhole(jump);
    RoundWhole(0);
    RoundMonotone(0.0, free);
    if free <= jump as real { RoundMonotone(free, jump as real); } else { RoundMonotone(jump as real, free); }
  }

  // ---- The filter object

  class KalmanSegmentFilter {
    var x0: real
    var x1: real
    var P: Matrix
    /** `null` until the first measurement. */
    var lastTime: Option<real>
    var initialized: bool

    ghost function Snapshot(): Filter
      reads this
    {
      Filter(x0, x1, P, lastTime, initialized)
    }

    ghost predicate Valid()
      reads this
    {
      Sound(Snapshot())
    }

    constructor ()
      ensures Valid() && Snapshot() == FRESH
    {
      x0, x1, P, lastTime, initialized := 0.0, 0.0, IDENTITY, None, false;
    }

    method Reset(measured: Option<real>)
      modifies this
      ensures Valid() && Snapshot() == Next(old(Snapshot()), Restart(measured))
      ensures P == IDENTITY && lastTime == None && !initialized && x1 == 0.0
      ensures x0 == match measured case Some(z) => z case None => 0.0
    {
      x0 := match measured case Some(z) => z case None => 0.0;
      x1, P, lastTime, initialized := 0.0, IDENTITY, None, false;
    }

    method Predict(dt: real)
      modifies `x0, `P
      ensures x0 == Moved(old(x0), old(x1), dt) && P == Predicted(old(P), dt)
    {
      x0 := Moved(x0, x1, dt);
      P := P.(a := Spread(P, dt));
      P := P.(b := Moved(P.b, P.d, dt));
      P := P.(c := Moved(P.c, P.d, dt));
      P := P.(d := P.d + Q11);
    }

    method Correct(z: real)
      requires InnovationVariance(P) > 0.0
      modifies `x0, `x1, `P
      ensures P == Corrected(old(P))
      ensures x0 == Nudged(old(x0), PositionGain(old(P)), z - old(x0))
      ensures x1 == Nudged(old(x1), VelocityGain(old(P)), z - old(x0))
    {
      var innovation := z - x0;
      var kPos, kVel := PositionGain(P), VelocityGain(P);
      x0 := Nudged(x0, kPos, innovation);
      x1 := Nudged(x1, kVel, innovation);
      var p00, p01 := P.a, P.b;
      P := P.(a := Nudged(P.a, -kPos, p00));
      P := P.(b := Nudged(P.b, -kPos, p01));
      P := P.(c := Nudged(P.c, -kVel, p00));
      P := P.(d := Nudged(P.d, -kVel, p01));
    }

    /**
     One measurement.  A non-finite measurement or a clock that did not advance changes nothing; the
     first measurement sets the position; any other runs prediction and correction in place.
     */
    method Update(measured: Option<real>, timestampMs: real)
      requires Valid()
      modifies this
      ensures Valid() && initialized == (old(initialized) || measured.Some?)
      ensures Snapshot() == Next(old(Snapshot()), Measure(measured, timestampMs))
      ensures measured == None ==> x0 == old(x0) && x1 == old(x1) && P == old(P) && lastTime == old(lastTime)
      ensures measured.Some? && !old(initialized) ==>
        x0 == measured.value && x1 == 0.0 && P == old(P) && lastTime == Some(timestampMs)
      ensures measured.Some? && old(initialized) && timestampMs <= old(lastTime).value ==>
        x0 == old(x0) && x1 == old(x1) && P == old(P) && lastTime == old(lastTime)
      ensures measured.Some? && old(initialized) && timestampMs > old(lastTime).value ==>
        var dt := (timestampMs - old(lastTime).value) / 1000.0;
        var prior := Predicted(old(P), dt);
        var forecast := Moved(old(x0), old(x1), dt);
        && InnovationVariance(prior) > R
        && P == Corrected(prior) && P.a < R
        && x0 == Nudged(forecast, PositionGain(prior), measured.value - forecast)
        && x1 == Nudged(old(x1), VelocityGain(prior), measured.value - forecast)
        && lastTime == Some(timestampMs)
    {
      if measured == None { return; }
      var z := measured.value;
      if !initialized {
        x0, x1, lastTime, initialized := z, 0.0, Some(timestampMs), true;
        return;
      }
      var dt := (timestampMs - lastTime.value) / 1000.0;
      if dt <= 0.0 { return; }
      PredictedPositive(P, dt);
      CorrectedPositive(Predicted(P, dt));
      Predict(dt);
      // The innovation variance P.a + R exceeds R here, so the guard for S <= 0 never returns.
      Correct(z);
      lastTime := Some(timestampMs);
    }
  }
}
