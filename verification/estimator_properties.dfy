/**
 Properties of the velocity estimator over whole sequences of `update`
 calls: the calibration phase, the one-way switch to integration, the
 reachable-state invariant, pure decay on stationary input, and the
 worked example.
 */
module EstimatorProperties {
  import opened Scalars
  import opened Vectors
  import opened VelocityEstimator

  /** k copies of one sample. */
  function Repeat(g: Vec3, k: nat): (s: seq<Vec3>)
    ensures |s| == k
    ensures forall i :: 0 <= i < k ==> s[i] == g
  {
    seq(k, _ => g)
  }

  /** A run of one sample is one call of `update`. */
  lemma RunSingle(e: Estimator, raw: Vec3, dt: real)
    ensures Run(e, [raw], dt) == Trace(Update(e, raw, dt).next, [Update(e, raw, dt).out])
  {
  }

  /** Every vector any run returns lies in [-MaxVel, MaxVel] on every axis. */
  lemma {:induction false} RunOutputsBounded(e: Estimator, raws: seq<Vec3>, dt: real)
    ensures forall i :: 0 <= i < |raws| ==> InBox(Run(e, raws, dt).outs[i], MaxVel)
    decreases |raws|
  {
    if |raws| > 0 {
      var s := Update(e, raws[0], dt);
      RunOutputsBounded(s.next, raws[1..], dt);
      assert Run(e, raws, dt).outs == [s.out] + Run(s.next, raws[1..], dt).outs;
    }
  }

  /** The last vector a run returns is the estimator's velocity after it. */
  lemma RunReturnsVelocity(e: Estimator, raws: seq<Vec3>, dt: real)
    requires |raws| > 0
    ensures Run(e, raws, dt).outs[|raws| - 1] == VelocityOf(Run(e, raws, dt).final)
  {
    var init, last := raws[..|raws| - 1], raws[|raws| - 1];
    assert raws == init + [last];
    RunAppend(e, init, [last], dt);
    RunSingle(Run(e, init, dt).final, last, dt);
  }

  /** Running two sequences back to back is running their concatenation. */
  lemma {:induction false} RunAppend(e: Estimator, a: seq<Vec3>, b: seq<Vec3>, dt: real)
    ensures Run(e, a + b, dt).final == Run(Run(e, a, dt).final, b, dt).final
    ensures Run(e, a + b, dt).outs == Run(e, a, dt).outs + Run(Run(e, a, dt).final, b, dt).outs
    decreases |a|
  {
    if |a| > 0 {
      var s := Update(e, a[0], dt);
      assert (a + b)[0] == a[0];
      assert (a + b)[1..] == a[1..] + b;
      RunAppend(s.next, a[1..], b, dt);
    } else {
      assert a + b == b;
    }
  }

  /**
   While fewer than `NCal` samples have been seen, every call returns zero,
   velocity and previous acceleration stay zero, and only the sample list
   grows.
   */
  lemma {:induction false} CollectingFrom(held: seq<Vec3>, raws: seq<Vec3>, dt: real)
    requires |held| + |raws| < NCal
    ensures Run(Collecting(held), raws, dt).final == Collecting(held + raws)
    ensures forall i :: 0 <= i < |raws| ==> Run(Collecting(held), raws, dt).outs[i] == Zero
    decreases |raws|
  {
    if |raws| > 0 {
      var s := Update(Collecting(held), raws[0], dt);
      assert s.next == Collecting(held + [raws[0]]);
      CollectingFrom(held + [raws[0]], raws[1..], dt);
      assert held + [raws[0]] + raws[1..] == held + raws;
    }
  }

  /** The first `NCal - 1` calls on a fresh estimator. */
  lemma CollectingCalls(raws: seq<Vec3>, dt: real)
    requires |raws| < NCal
    ensures !IsInitialized(Run(Init(), raws, dt).final)
    ensures Run(Init(), raws, dt).final.samples == raws
    ensures VelocityOf(Run(Init(), raws, dt).final) == Zero
    ensures PrevOf(Run(Init(), raws, dt).final) == Zero
    ensures forall i :: 0 <= i < |raws| ==> Run(Init(), raws, dt).outs[i] == Zero
  {
    CollectingFrom([], raws, dt);
    assert [] + raws == raws;
  }

  /**
   The `NCal`-th call fixes the offset at the component-wise mean of the
   three samples and initialises the estimator, yet still returns zero: that
   sample is not integrated.
   */
  lemma CalibrationCall(p: Vec3, q: Vec3, r: Vec3, dt: real)
    ensures Run(Init(), [p, q, r], dt).final == Ready([p, q, r], Mean([p, q, r]), Zero, Zero)
    ensures forall a: Axis :: Get(Run(Init(), [p, q, r], dt).final.offset, a) == (Get(p, a) + Get(q, a) + Get(r, a)) / 3.0
    ensures Run(Init(), [p, q, r], dt).outs == [Zero, Zero, Zero]
  {
    CollectingFrom([], [p, q], dt);
    assert [p, q, r] == [p, q] + [r];
    RunAppend(Init(), [p, q], [r], dt);
    assert [] + [p, q] == [p, q];
    assert [p, q] + [r] == [p, q, r];
    MeanOfThree(p, q, r);
  }

  /** Calibrating on three identical samples gives exactly that sample as offset. */
  lemma IdenticalSamplesCalibrate(g: Vec3, dt: real)
    ensures Run(Init(), [g, g, g], dt).final == Ready([g, g, g], g, Zero, Zero)
  {
    CalibrationCall(g, g, g, dt);
    MeanOfCopies([g, g, g], g);
  }

  /** Once ready, the estimator stays ready and keeps its samples and offset. */
  lemma {:induction false} RunKeepsCalibration(e: Estimator, raws: seq<Vec3>, dt: real)
    requires IsInitialized(e)
    ensures IsInitialized(Run(e, raws, dt).final)
    ensures Run(e, raws, dt).final.samples == e.samples
    ensures Run(e, raws, dt).final.offset == e.offset
    decreases |raws|
  {
    if |raws| > 0 {
      RunKeepsCalibration(Update(e, raws[0], dt).next, raws[1..], dt);
    }
  }

  /**
   From a fresh estimator, the phase after n calls is decided by n alone:
   initialised exactly when n >= NCal, with the first `NCal` samples as
   calibration set, their mean as offset, and zero for the first `NCal`
   returns.
   */
  lemma RunFromInit(raws: seq<Vec3>, dt: real)
    ensures IsInitialized(Run(Init(), raws, dt).final) <==> |raws| >= NCal
    ensures |raws| >= NCal ==> Run(Init(), raws, dt).final.samples == raws[..NCal]
    ensures |raws| >= NCal ==> Run(Init(), raws, dt).final.offset == Mean(raws[..NCal])
    ensures forall i :: 0 <= i < |raws| && i < NCal ==> Run(Init(), raws, dt).outs[i] == Zero
  {
    if |raws| < NCal {
      CollectingCalls(raws, dt);
    } else {
      var cal, rest := raws[..NCal], raws[NCal..];
      assert cal == [raws[0], raws[1], raws[2]];
      assert raws == cal + rest;
      CalibrationCall(raws[0], raws[1], raws[2], dt);
      RunAppend(Init(), cal, rest, dt);
      RunKeepsCalibration(Run(Init(), cal, dt).final, rest, dt);
    }
  }

  /** After at least one integration step, the stored previous acceleration is the last corrected sample. */
  lemma RunPrevIsLastCorrected(e: Estimator, raws: seq<Vec3>, dt: real)
    requires IsInitialized(e)
    requires |raws| > 0
    ensures PrevOf(Run(e, raws, dt).final) == RemoveGravity(e.offset, raws[|raws| - 1])
  {
    var init, last := raws[..|raws| - 1], raws[|raws| - 1];
    assert raws == init + [last];
    RunAppend(e, init, [last], dt);
    RunKeepsCalibration(e, init, dt);
  }

  lemma InitValid()
    ensures Valid(Init())
  {
  }

  /** Every call keeps the estimator among the reachable states. */
  lemma UpdatePreservesValid(e: Estimator, raw: Vec3, dt: real)
    requires Valid(e)
    ensures Valid(Update(e, raw, dt).next)
  {
  }

  lemma {:induction false} RunPreservesValid(e: Estimator, raws: seq<Vec3>, dt: real)
    requires Valid(e)
    ensures Valid(Run(e, raws, dt).final)
    decreases |raws|
  {
    if |raws| > 0 {
      UpdatePreservesValid(e, raws[0], dt);
      RunPreservesValid(Update(e, raws[0], dt).next, raws[1..], dt);
    }
  }

  /**
   A sample equal to the offset after a zero previous acceleration leaves
   only the decay: the velocity is multiplied by `Decay` and the stored
   previous acceleration stays zero.
   */
  lemma StationaryStep(samples: seq<Vec3>, offset: Vec3, v: Vec3, dt: real)
    requires InBox(v, MaxVel)
    ensures Update(Ready(samples, offset, v, Zero), offset, dt)
            == Step(Ready(samples, offset, Scale(Decay, v), Zero), Scale(Decay, v))
  {
    var s := Update(Ready(samples, offset, v, Zero), offset, dt);
    forall a: Axis
      ensures Get(s.out, a) == Get(Scale(Decay, v), a)
    {
      assert Get(offset, a) - Get(offset, a) == 0.0;
      assert (0.0 + 0.0) / 2.0 * dt == 0.0;
    }
    Extensionality(s.out, Scale(Decay, v));
    Extensionality(RemoveGravity(offset, offset), Zero);
  }

  lemma ScaleTwice(p: real, q: real, v: Vec3)
    ensures Scale(p, Scale(q, v)) == Scale(p * q, v)
  {
  }

  /**
   Holding the device still for k ticks after a zero previous acceleration
   shrinks the velocity geometrically: the i-th return is Decay^(i+1) * v.
   */
  lemma {:induction false} StationaryDecay(samples: seq<Vec3>, offset: Vec3, v: Vec3, k: nat, dt: real)
    requires InBox(v, MaxVel)
    ensures Run(Ready(samples, offset, v, Zero), Repeat(offset, k), dt).final
            == Ready(samples, offset, Scale(Pow(Decay, k), v), Zero)
    ensures forall i :: 0 <= i < k ==>
              Run(Ready(samples, offset, v, Zero), Repeat(offset, k), dt).outs[i] == Scale(Pow(Decay, i + 1), v)
    decreases k
  {
    var e := Ready(samples, offset, v, Zero);
    if k == 0 {
      Extensionality(Scale(1.0, v), v);
    } else {
      StationaryStep(samples, offset, v, dt);
      var v1 := Scale(Decay, v);
      assert Repeat(offset, k)[1..] == Repeat(offset, k - 1);
      StationaryDecay(samples, offset, v1, k - 1, dt);
      var t := Run(e, Repeat(offset, k), dt);
      var rest := Run(Ready(samples, offset, v1, Zero), Repeat(offset, k - 1), dt);
      assert t.final == rest.final;
      assert t.outs == [v1] + rest.outs;
      ScaleTwice(Pow(Decay, k - 1), Decay, v);
      forall i | 0 <= i < k
        ensures t.outs[i] == Scale(Pow(Decay, i + 1), v)
      {
        if i == 0 {
          assert Pow(Decay, 1) == Decay;
        } else {
          ScaleTwice(Pow(Decay, i), Decay, v);
        }
      }
    }
  }

  /** Decay^k never exceeds 99 / (99 + k), so it goes to zero as k grows. */
  lemma {:induction false} DecayPowerBound(k: nat)
    ensures 0.0 < Pow(Decay, k) <= 1.0
    ensures Pow(Decay, k) * (99.0 + k as real) <= 99.0
  {
    if k > 0 {
      DecayPowerBound(k - 1);
      var p := Pow(Decay, k - 1);
      var n := (k - 1) as real;
      assert p * (99.0 + n) <= 99.0;
      assert Pow(Decay, k) == p * Decay;
      assert p * Decay * (99.0 + n + 1.0) == Decay * (p * (99.0 + n)) + p * Decay;
      assert p * Decay <= Decay;
    }
  }

  /**
   A device that is never moved: after calibrating on three samples it is fed
   their mean forever, and every return, like the internal velocity, is zero.
   */
  lemma StillDeviceStaysZero(p: Vec3, q: Vec3, r: Vec3, k: nat, dt: real)
    ensures forall i :: 0 <= i < NCal + k ==>
              Run(Init(), [p, q, r] + Repeat(Mean([p, q, r]), k), dt).outs[i] == Zero
    ensures VelocityOf(Run(Init(), [p, q, r] + Repeat(Mean([p, q, r]), k), dt).final) == Zero
  {
    var g := Mean([p, q, r]);
    CalibrationCall(p, q, r, dt);
    RunAppend(Init(), [p, q, r], Repeat(g, k), dt);
    StationaryDecay([p, q, r], g, Zero, k, dt);
    assert forall c: real :: Scale(c, Zero) == Zero;
  }

  /** Gravity along z, one unit of acceleration along x for a 0.01 s tick. */
  const Gravity: Vec3 := Vec3(0.0, 0.0, 9.8)
  const Push: Vec3 := Vec3(1.0, 0.0, 9.8)

  /** The fourth call of the worked example, from the calibrated state. */
  lemma WorkedExampleStep()
    ensures Update(Ready([Gravity, Gravity, Gravity], Gravity, Zero, Zero), Push, 0.01).out
            == Vec3(0.00495, 0.0, 0.0)
  {
  }

  /**
   Calibrating on three copies of (0, 0, 9.8) and then feeding (1, 0, 9.8)
   with dt = 0.01 returns (0.00495, 0, 0): a correction of (1, 0, 0), a
   rectangular first step of 0.005, then the decay.
   */
  lemma WorkedExample()
    ensures Run(Init(), [Gravity, Gravity, Gravity, Push], 0.01).outs
            == [Zero, Zero, Zero, Vec3(0.00495, 0.0, 0.0)]
  {
    var e3 := Ready([Gravity, Gravity, Gravity], Gravity, Zero, Zero);
    var t3 := Run(Init(), [Gravity, Gravity, Gravity], 0.01);
    CalibrationCall(Gravity, Gravity, Gravity, 0.01);
    IdenticalSamplesCalibrate(Gravity, 0.01);
    assert t3.final == e3;
    assert t3.outs == [Zero, Zero, Zero];
    var t4 := Run(e3, [Push], 0.01);
    RunSingle(e3, Push, 0.01);
    WorkedExampleStep();
    assert t4.outs == [Vec3(0.00495, 0.0, 0.0)];
    assert [Gravity, Gravity, Gravity, Push] == [Gravity, Gravity, Gravity] + [Push];
    RunAppend(Init(), [Gravity, Gravity, Gravity], [Push], 0.01);
    assert Run(Init(), [Gravity, Gravity, Gravity, Push], 0.01).outs == t3.outs + t4.outs;
  }

  /**
   The object returned by the third call of the source's `update` is the
   estimator's own velocity: it reads zero when returned, but after the
   worked example's fourth call it reads (0.00495, 0, 0).
   */
  lemma AliasedCalibrationReturn()
    ensures var e2 := Run(Init(), [Gravity, Gravity], 0.01).final;
            var (e3, h) := UpdateAsWritten(e2, Gravity, 0.01);
            var e4 := Update(e3, Push, 0.01).next;
            h == InternalVelocity && Read(h, e3) == Zero && Read(h, e4) == Vec3(0.00495, 0.0, 0.0)
  {
    CollectingCalls([Gravity, Gravity], 0.01);
    var e2 := Run(Init(), [Gravity, Gravity], 0.01).final;
    assert e2 == Collecting([Gravity, Gravity]);
    assert [Gravity, Gravity] + [Gravity] == [Gravity, Gravity, Gravity];
    MeanOfCopies([Gravity, Gravity, Gravity], Gravity);
    var e3 := Update(e2, Gravity, 0.01).next;
    assert e3 == Ready([Gravity, Gravity, Gravity], Gravity, Zero, Zero);
    WorkedExampleStep();
  }
}
