/**
 The per-device velocity estimator: a streaming state machine that first
 collects `NCal` raw accelerometer samples to fix a gravity offset, and from
 then on integrates each gravity-corrected sample with the trapezoidal rule,
 decays the velocity by `Decay` and clamps every axis to [-MaxVel, MaxVel].

 The state is a tagged variant. While `Collecting`, the source's `velocity`
 and `prev_accel` fields still hold their initial zero vectors; the accessors
 `VelocityOf` and `PrevOf` give those values for either tag.
 */
module VelocityEstimator {
  import opened Scalars
  import opened Vectors

  /** Number of samples averaged into the gravity offset. */
  const NCal: nat := 3
  /** Multiplicative velocity decay applied on every integration step. */
  const Decay: real := 0.99
  /** Per-axis bound on the velocity estimate. */
  const MaxVel: real := 2.0

  datatype Estimator =
    | Collecting(samples: seq<Vec3>)
    | Ready(samples: seq<Vec3>, offset: Vec3, velocity: Vec3, prev: Vec3)

  /** The successor state of one `update` call and the vector it returns. */
  datatype Step = Step(next: Estimator, out: Vec3)

  /** The successor state after a sequence of calls and every vector returned, in order. */
  datatype Trace = Trace(final: Estimator, outs: seq<Vec3>)

  /** `is_initialized` */
  predicate IsInitialized(e: Estimator) {
    e.Ready?
  }

  /** `velocity`: zero until the first integration step. */
  function VelocityOf(e: Estimator): Vec3 {
    if e.Ready? then e.velocity else Zero
  }

  /** `prev_accel`: zero until the first integration step. */
  function PrevOf(e: Estimator): Vec3 {
    if e.Ready? then e.prev else Zero
  }

  /** The freshly constructed estimator. */
  function Init(): (e: Estimator)
    ensures !IsInitialized(e)
    ensures e.samples == []
    ensures VelocityOf(e) == Zero && PrevOf(e) == Zero
  {
    Collecting([])
  }

  /**
   Records one calibration sample. Once at least `n` samples are held, the
   offset becomes their component-wise mean and the estimator is initialised.
   An estimator that is already initialised stays so, and keeps its offset
   while fewer than `n` samples are held. Velocity and previous acceleration
   are never touched.
   */
  function InitializeGravity(e: Estimator, accel: Vec3, n: nat): (r: Estimator)
    ensures r.samples == e.samples + [accel]
    ensures IsInitialized(r) <==> IsInitialized(e) || |e.samples| + 1 >= n
    ensures |e.samples| + 1 >= n ==> r.Ready? && Scale(|r.samples| as real, r.offset) == Sum(r.samples)
    ensures |e.samples| + 1 < n && e.Ready? ==> r.offset == e.offset
    ensures VelocityOf(r) == VelocityOf(e) && PrevOf(r) == PrevOf(e)
  {
    var held := e.samples + [accel];
    if |held| >= n then Ready(held, Mean(held), VelocityOf(e), PrevOf(e))
    else if e.Ready? then e.(samples := held)
    else Collecting(held)
  }

  /** The raw sample with the gravity offset taken away. */
  function RemoveGravity(offset: Vec3, accel: Vec3): (c: Vec3)
    ensures forall a: Axis :: Get(c, a) == Get(accel, a) - Get(offset, a)
    ensures Add(c, offset) == accel
  {
    Sub(accel, offset)
  }

  /**
   One axis of an integration step, written as a single scalar formula:
   clamp(decay * (v + (c + p) / 2 * dt)).
   */
  function AxisStep(v: real, c: real, p: real, dt: real): real {
    Clamp(MaxVel, Decay * (v + (c + p) / 2.0 * dt))
  }

  /**
   `update(raw_accel, dt)`. A collecting estimator records the sample and
   returns zero (also on the call that completes calibration, whose sample is
   not integrated). A ready estimator integrates the corrected sample
   against the previous one, decays, clamps, and returns the new velocity.
   */
  function Update(e: Estimator, raw: Vec3, dt: real): (s: Step)
    ensures InBox(s.out, MaxVel)
    ensures s.out == VelocityOf(s.next)
    ensures e.Collecting? ==> s.next == InitializeGravity(e, raw, NCal) && s.out == Zero
    ensures e.Ready? ==> s.next.Ready? && s.next.samples == e.samples && s.next.offset == e.offset
    ensures e.Ready? ==> s.next.prev == RemoveGravity(e.offset, raw)
    ensures e.Ready? ==> forall a: Axis ::
              Get(s.out, a) == AxisStep(Get(e.velocity, a), Get(raw, a) - Get(e.offset, a), Get(e.prev, a), dt)
  {
    match e
    case Collecting(_) =>
      var next := InitializeGravity(e, raw, NCal);
      Step(next, VelocityOf(next))
    case Ready(samples, offset, v, prev) =>
      var c := RemoveGravity(offset, raw);
      var v' := Integrate(v, c, prev, dt);
      Step(Ready(samples, offset, v', c), v')
  }

  /** The integration step, each axis on its own. */
  function Integrate(v: Vec3, c: Vec3, p: Vec3, dt: real): (r: Vec3)
    ensures forall a: Axis :: Get(r, a) == AxisStep(Get(v, a), Get(c, a), Get(p, a), dt)
    ensures InBox(r, MaxVel)
  {
    Vec3(AxisStep(v.x, c.x, p.x, dt), AxisStep(v.y, c.y, p.y, dt), AxisStep(v.z, c.z, p.z, dt))
  }

  /** Feeds the samples to `update` one after another with the same tick length. */
  function Run(e: Estimator, raws: seq<Vec3>, dt: real): (t: Trace)
    ensures |t.outs| == |raws|
    decreases |raws|
  {
    if |raws| == 0 then
      Trace(e, [])
    else
      var s := Update(e, raws[0], dt);
      var rest := Run(s.next, raws[1..], dt);
      Trace(rest.final, [s.out] + rest.outs)
  }

  /**
   The states `update` can produce from a fresh estimator: fewer than `NCal`
   samples while collecting; exactly `NCal` samples whose mean is the offset,
   and a velocity within bounds, once ready.
   */
  predicate Valid(e: Estimator) {
    match e
    case Collecting(samples) => |samples| < NCal
    case Ready(samples, offset, v, _) => |samples| == NCal && offset == Mean(samples) && InBox(v, MaxVel)
  }

  /**
   What `update` hands back to its caller: either a fresh copy of a vector,
   or the estimator's own velocity object, whose contents the caller keeps
   seeing as later calls change it.
   */
  datatype Handle = Snapshot(v: Vec3) | InternalVelocity

  /** What the caller reads through a handle while the estimator is in state `current`. */
  function Read(h: Handle, current: Estimator): Vec3 {
    match h
    case Snapshot(v) => v
    case InternalVelocity => VelocityOf(current)
  }

  /**
   `update` with the source's return values as written: the call that
   completes calibration returns the estimator's velocity object itself
   rather than a copy, the two other branches return fresh vectors.
   */
  function UpdateAsWritten(e: Estimator, raw: Vec3, dt: real): (r: (Estimator, Handle))
    ensures r.0 == Update(e, raw, dt).next
    ensures Read(r.1, r.0) == Update(e, raw, dt).out
    ensures r.1 == InternalVelocity <==> e.Collecting? && r.0.Ready?
    ensures r.1 != InternalVelocity ==> r.1 == Snapshot(Update(e, raw, dt).out)
  {
    var s := Update(e, raw, dt);
    if e.Collecting? && IsInitialized(s.next) then (s.next, InternalVelocity)
    else (s.next, Snapshot(s.out))
  }

  /**
   `update` returning a copy on every branch: what the caller reads through
   the result never changes, whatever the estimator does afterwards.
   */
  function UpdateSnapshot(e: Estimator, raw: Vec3, dt: real): (r: (Estimator, Handle))
    ensures r.0 == Update(e, raw, dt).next
    ensures forall later: Estimator :: Read(r.1, later) == Update(e, raw, dt).out
  {
    var s := Update(e, raw, dt);
    (s.next, Snapshot(s.out))
  }
}
