/** Vertical motion of the bird and the frame-time cap of the animation loop. */
module Physics {
  import opened Params

  /** The bird's vertical state: position (y grows downwards) and velocity. */
  datatype Body = Body(y: real, v: real)

  /** One step of semi-implicit Euler: the velocity gains gravity first and the
      position then moves by the new velocity. */
  function Integrate(b: Body, dt: real): Body
  {
    var v := b.v + Gravity * dt;
    Body(b.y + v * dt, v)
  }

  /** A flap sets the velocity to a fixed upward value; it does not add to it. */
  function Flapped(b: Body): (next: Body)
    ensures next.y == b.y && next.v == FlapVelocity
  {
    b.(v := FlapVelocity)
  }

  /** Integrating, flapping and integrating again leaves a velocity that does
      not depend on the velocity before the flap. */
  lemma FlapForgetsVelocity(b1: Body, b2: Body, dt: real)
    ensures Integrate(Flapped(Integrate(b1, dt)), dt).v == Integrate(Flapped(Integrate(b2, dt)), dt).v
    ensures Integrate(Flapped(Integrate(b1, dt)), dt).v == FlapVelocity + Gravity * dt
  {
  }

  /** The body after n steps of length dt with no flap. */
  function FallFor(b: Body, dt: real, n: nat): Body
  {
    if n == 0 then b else Integrate(FallFor(b, dt, n - 1), dt)
  }

  /** The triangular number 1 + 2 + ... + n, as a real. */
  function Tri(n: nat): real
  {
    if n == 0 then 0.0 else Tri(n - 1) + n as real
  }

  lemma {:induction false} TriClosedForm(n: nat)
    ensures Tri(n) == (n as real) * (n as real + 1.0) / 2.0
  {
    if n > 0 {
      TriClosedForm(n - 1);
      var r := n as real;
      assert Tri(n - 1) == (r - 1.0) * r / 2.0;
      assert (r - 1.0) * r + 2.0 * r == r * (r + 1.0);
    }
  }

  /** Closed form of a free fall: after n steps the velocity has gained
      n * G * dt and the position has moved by n * v0 * dt + Tri(n) * G * dt^2,
      that is G * dt^2 * n(n+1)/2 from the gravity. */
  lemma {:induction false} FallClosedForm(b: Body, dt: real, n: nat)
    ensures FallFor(b, dt, n).v == b.v + (n as real) * (Gravity * dt)
    ensures FallFor(b, dt, n).y == b.y + (n as real) * (b.v * dt) + Tri(n) * (Gravity * dt * dt)
    decreases n
  {
    if n > 0 {
      FallClosedForm(b, dt, n - 1);
      var m := (n - 1) as real;
      var a := Gravity * dt;
      var prev := FallFor(b, dt, n - 1);
      var v := prev.v + a;
      StepAlgebra(b.y, b.v, dt, a, m, Tri(n - 1), prev.y, prev.v);
      assert FallFor(b, dt, n) == Body(prev.y + v * dt, v);
      assert n as real == m + 1.0 && Tri(n) == Tri(n - 1) + m + 1.0;
    }
  }

  /** Starting from rest, the bird has sunk into the ground band after n
      ticks of length dt exactly when the fall Tri(n) * G * dt^2 exceeds the
      clearance between the bird's lower edge and the ground line. */
  lemma GroundReachedAfter(b: Body, dt: real, n: nat, height: real)
    requires b.v == 0.0
    ensures FallFor(b, dt, n).y + BirdRadius > height - GroundBand
        <==> Tri(n) * (Gravity * dt * dt) > height - GroundBand - BirdRadius - b.y
  {
    FallClosedForm(b, dt, n);
  }

  /** The algebra of one induction step of FallClosedForm, over plain reals. */
  lemma StepAlgebra(y0: real, v0: real, dt: real, a: real, m: real, t: real, y: real, v: real)
    requires v == v0 + m * a
    requires y == y0 + m * (v0 * dt) + t * (a * dt)
    ensures v + a == v0 + (m + 1.0) * a
    ensures y + (v + a) * dt == y0 + (m + 1.0) * (v0 * dt) + (t + m + 1.0) * (a * dt)
  {
    assert (v + a) * dt == v0 * dt + (m + 1.0) * (a * dt);
  }

  /** The simulated step of a frame: the elapsed wall time in seconds, capped
      from above at MaxDt (the cap is the only clamp; a negative sample passes). */
  function FrameDt(lastMs: real, nowMs: real): (dt: real)
    ensures dt <= MaxDt && dt <= (nowMs - lastMs) / 1000.0
    ensures dt == MaxDt || dt == (nowMs - lastMs) / 1000.0
  {
    Min(MaxDt, (nowMs - lastMs) / 1000.0)
  }
}
