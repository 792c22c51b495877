/**
 The scalar normalisers of the teleoperation loop: stick axes mapped to
 [-1, 1] around a centre with a deadzone, accelerometer and gyroscope
 components divided by their full-scale constant and clamped, and status
 keys made attribute-friendly by turning '-' into '_'.
 */
module Teleop {
  import opened Scalars
  import opened Vectors

  /** `normalize_axis` defaults: raw stick readings span roughly 0..4095. */
  const StickCenter: int := 2048
  const StickSpan: int := 2048
  const StickDeadzone: real := 0.05

  /** Full-scale constants of `normalize_accel` and `normalize_gyro`. */
  const MaxAccel: real := 6000.0
  const MaxGyro: real := 5000.0

  /** A float division whose divisor is zero raises instead of returning. */
  datatype Result<T> = Ok(value: T) | ZeroDivisionError

  /** The stick offset from centre in units of span, before deadzone and clamp. */
  function Ratio(v: int, center: int, span: int): real
    requires span != 0
  {
    (v - center) as real / span as real
  }

  /**
   `normalize_axis(v, center, span, deadzone)`: zero strictly inside the
   deadzone, otherwise the ratio clamped to [-1, 1]; a zero span raises.
   */
  function NormalizeAxis(v: int, center: int, span: int, deadzone: real): (r: Result<real>)
    ensures r.ZeroDivisionError? <==> span == 0
    ensures r.Ok? ==> -1.0 <= r.value <= 1.0
    ensures r.Ok? && Abs(Ratio(v, center, span)) < deadzone ==> r.value == 0.0
    ensures r.Ok? && Abs(Ratio(v, center, span)) >= deadzone ==>
              (-1.0 <= Ratio(v, center, span) <= 1.0 ==> r.value == Ratio(v, center, span))
              && (Ratio(v, center, span) > 1.0 ==> r.value == 1.0)
              && (Ratio(v, center, span) < -1.0 ==> r.value == -1.0)
  {
    if span == 0 then
      ZeroDivisionError
    else
      var x := Ratio(v, center, span);
      if Abs(x) < deadzone then Ok(0.0) else Ok(Clamp(1.0, x))
  }

  /** A stick at rest on its centre reads exactly zero, whatever the deadzone. */
  lemma NormalizeAxisAtCenter(center: int, span: int, deadzone: real)
    requires span != 0
    ensures NormalizeAxis(center, center, span, deadzone) == Ok(0.0)
  {
  }

  lemma DivideMonotone(a: real, b: real, d: real)
    requires d > 0.0
    requires a <= b
    ensures a / d <= b / d
  {
  }

  /** With a positive span, pushing the stick further never lowers the reading. */
  lemma NormalizeAxisMonotone(v1: int, v2: int, center: int, span: int, deadzone: real)
    requires span > 0
    requires v1 <= v2
    ensures NormalizeAxis(v1, center, span, deadzone).value <= NormalizeAxis(v2, center, span, deadzone).value
  {
    var x1, x2 := Ratio(v1, center, span), Ratio(v2, center, span);
    DivideMonotone((v1 - center) as real, (v2 - center) as real, span as real);
    ClampMonotone(1.0, x1, x2);
  }

  /**
   With the default centre, span and deadzone, a stick reads zero exactly
   when its raw value is within 102 of 2048.
   */
  lemma DefaultStickDeadband(v: int)
    ensures NormalizeAxis(v, StickCenter, StickSpan, StickDeadzone) == Ok(0.0) <==> 1946 <= v <= 2150
  {
  }

  /** The default mapping sends the bottom of the raw range to -1 and the top just short of 1. */
  lemma DefaultStickEnds()
    ensures NormalizeAxis(0, StickCenter, StickSpan, StickDeadzone) == Ok(-1.0)
    ensures NormalizeAxis(4095, StickCenter, StickSpan, StickDeadzone) == Ok(2047.0 / 2048.0)
  {
  }

  /**
   One sensor component divided by its full-scale value and clamped to
   [-1, 1]: proportional up to full scale, saturated beyond it.
   */
  function NormalizeComponent(u: real, limit: real): (r: real)
    requires limit > 0.0
    ensures -1.0 <= r <= 1.0
    ensures Abs(u) <= limit ==> r == u / limit
    ensures u > limit ==> r == 1.0
    ensures u < -limit ==> r == -1.0
  {
    UnitRatio(u, limit);
    Clamp(1.0, u / limit)
  }

  /** Where u / limit falls relative to [-1, 1], for a positive limit. */
  lemma UnitRatio(u: real, limit: real)
    requires limit > 0.0
    ensures Abs(u) <= limit ==> -1.0 <= u / limit <= 1.0
    ensures u > limit ==> u / limit > 1.0
    ensures u < -limit ==> u / limit < -1.0
  {
  }

  /** A larger reading never normalises to a smaller value. */
  lemma NormalizeComponentMonotone(u1: real, u2: real, limit: real)
    requires limit > 0.0
    requires u1 <= u2
    ensures NormalizeComponent(u1, limit) <= NormalizeComponent(u2, limit)
  {
    DivideMonotone(u1, u2, limit);
    ClampMonotone(1.0, u1 / limit, u2 / limit);
  }

  /** `normalize_accel`: every axis scaled by 1/6000 and clamped, on its own. */
  function NormalizeAccel(accel: Vec3): (r: Vec3)
    ensures forall a: Axis :: Get(r, a) == NormalizeComponent(Get(accel, a), MaxAccel)
    ensures InBox(r, 1.0)
  {
    Vec3(NormalizeComponent(accel.x, MaxAccel),
         NormalizeComponent(accel.y, MaxAccel),
         NormalizeComponent(accel.z, MaxAccel))
  }

  /** `normalize_gyro`: every axis scaled by 1/5000 and clamped, on its own. */
  function NormalizeGyro(gyro: Vec3): (r: Vec3)
    ensures forall a: Axis :: Get(r, a) == NormalizeComponent(Get(gyro, a), MaxGyro)
    ensures InBox(r, 1.0)
  {
    Vec3(NormalizeComponent(gyro.x, MaxGyro),
         NormalizeComponent(gyro.y, MaxGyro),
         NormalizeComponent(gyro.z, MaxGyro))
  }

  /**
   Within full scale an accelerometer axis is divided by 6000 exactly, and
   each output axis depends on its own input axis only.
   */
  lemma NormalizeAccelAxes(p: Vec3, q: Vec3, a: Axis)
    ensures Abs(Get(p, a)) <= MaxAccel ==> Get(NormalizeAccel(p), a) == Get(p, a) / MaxAccel
    ensures Get(p, a) == Get(q, a) ==> Get(NormalizeAccel(p), a) == Get(NormalizeAccel(q), a)
  {
  }

  /**
   Within full scale a gyroscope axis is divided by 5000 exactly, and each
   output axis depends on its own input axis only.
   */
  lemma NormalizeGyroAxes(p: Vec3, q: Vec3, a: Axis)
    ensures Abs(Get(p, a)) <= MaxGyro ==> Get(NormalizeGyro(p), a) == Get(p, a) / MaxGyro
    ensures Get(p, a) == Get(q, a) ==> Get(NormalizeGyro(p), a) == Get(NormalizeGyro(q), a)
  {
  }

  /** The character a status key carries after sanitising. */
  function SanitizeChar(c: char): char {
    if c == '-' then '_' else c
  }

  /** `_sanitize_key`: every '-' of the key replaced by '_'. */
  function SanitizeKey(key: string): (r: string)
    ensures |r| == |key|
    ensures forall i :: 0 <= i < |key| ==> r[i] == SanitizeChar(key[i])
    ensures '-' !in r
  {
    if |key| == 0 then "" else [SanitizeChar(key[0])] + SanitizeKey(key[1..])
  }

  /** A key without '-' is already sanitised. */
  lemma SanitizeKeyKeepsClean(key: string)
    requires '-' !in key
    ensures SanitizeKey(key) == key
  {
  }

  /** Sanitising twice is sanitising once. */
  lemma SanitizeKeyIdempotent(key: string)
    ensures SanitizeKey(SanitizeKey(key)) == SanitizeKey(key)
  {
  }

  /** Sanitising works character by character, so it distributes over concatenation. */
  lemma SanitizeKeyAppend(a: string, b: string)
    ensures SanitizeKey(a + b) == SanitizeKey(a) + SanitizeKey(b)
  {
  }
}
