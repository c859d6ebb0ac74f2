/** The aim-cursor arithmetic of the renderer's tick update: yaw normalisation,
    the signed deviation from the tracked heading, the clamped X cursor, the
    +-40 degree dead zone that drags `cursorCenter` and the pitch-driven Y cursor.
    Java doubles are modelled as exact reals (no rounding). */
module Aim {

  /** Java's `(int)` / `(long)` cast of a double: truncation toward zero. */
  function Trunc(x: real): (r: int)
    ensures 0.0 <= x ==> r as real <= x < r as real + 1.0
    ensures x < 0.0 ==> r as real - 1.0 < x <= r as real
  {
    if x >= 0.0 then x.Floor else -((-x).Floor)
  }

  /** Java's `x % 360` on doubles: the remainder of a division truncated
      toward zero, so it takes the sign of `x`. */
  function Rem360(x: real): (r: real)
    ensures 0.0 <= x ==> 0.0 <= r < 360.0
    ensures x < 0.0 ==> -360.0 < r <= 0.0
  {
    x - 360.0 * Trunc(x / 360.0) as real
  }

  /** Reference definition: the representative of `x` modulo 360 in [0, 360). */
  function Mod360(x: real): (r: real)
    ensures 0.0 <= r < 360.0
  {
    x - 360.0 * (x / 360.0).Floor as real
  }

  /** The value in [0, 360) that differs from `x` by a whole number of turns is unique. */
  lemma Mod360Unique(x: real, r: real, k: int)
    requires 0.0 <= r < 360.0
    requires x == r + 360.0 * k as real
    ensures Mod360(x) == r
  {
    assert x / 360.0 == r / 360.0 + k as real;
    assert (x / 360.0).Floor == k;
  }

  /** `((a % 360) + 360) % 360` as the source writes it for yaw angles. */
  function NormalizeYaw(a: real): (r: real)
    ensures 0.0 <= r < 360.0
  {
    Rem360(Rem360(a) + 360.0)
  }

  /** The double remainder normalises any angle to its representative modulo 360. */
  lemma {:induction false} NormalizeYawIsMod360(a: real)
    ensures NormalizeYaw(a) == Mod360(a)
  {
    var t := Trunc(a / 360.0);
    var b := Rem360(a) + 360.0;
    var t2 := Trunc(b / 360.0);
    assert b == a + 360.0 * (1 - t) as real;
    assert NormalizeYaw(a) == a + 360.0 * (1 - t - t2) as real;
    Mod360Unique(a, NormalizeYaw(a), t + t2 - 1);
  }

  /** The signed deviation of the view direction `yaw` from the tracked heading
      `center`: `180 - (((yaw + (180 - center)) % 360) + 360) % 360`. */
  function Deviation(yaw: real, center: real): (r: real)
    ensures -180.0 < r <= 180.0
  {
    180.0 - NormalizeYaw(yaw + (180.0 - center))
  }

  /** The deviation is `center - yaw` reduced into (-180, 180]: it is the unique
      such value that differs from `center - yaw` by whole turns. */
  lemma {:induction false} DeviationIsWrappedDifference(yaw: real, center: real, d: real, k: int)
    requires -180.0 < d <= 180.0
    requires d == center - yaw + 360.0 * k as real
    ensures Deviation(yaw, center) == d
  {
    NormalizeYawIsMod360(yaw + (180.0 - center));
    Mod360Unique(yaw + (180.0 - center), 180.0 - d, k);
  }

  /** Looking exactly along the tracked heading gives no deviation. */
  lemma CenteredHasNoDeviation(yaw: real)
    ensures Deviation(yaw, yaw) == 0.0
  {
    DeviationIsWrappedDifference(yaw, yaw, 0.0, 0);
  }

  /** `Math.min(hi, Math.max(lo, x))`. */
  function Clamp(x: real, lo: real, hi: real): (r: real)
    requires lo <= hi
    ensures lo <= r <= hi
    ensures lo <= x <= hi ==> r == x
    ensures x < lo ==> r == lo
    ensures hi < x ==> r == hi
  {
    if x < lo then lo else if hi < x then hi else x
  }

  /** The X aim cursor: the deviation scaled by 127/40, clamped into
      [-127, 127] and negated. */
  function CursorX(deviation: real): (r: real)
    ensures -127.0 <= r <= 127.0
    ensures deviation == 0.0 ==> r == 0.0
    ensures deviation >= 40.0 ==> r == -127.0
    ensures deviation <= -40.0 ==> r == 127.0
    ensures -40.0 <= deviation <= 40.0 ==> r * 40.0 == -127.0 * deviation
  {
    -Clamp(deviation * (127.0 / 40.0), -127.0, 127.0)
  }

  /** The amount `cursorCenter` moves by: zero inside the +-40 degree dead zone,
      otherwise the part of the deviation beyond it. */
  function DeadZone(deviation: real): (r: real)
    ensures -40.0 <= deviation <= 40.0 ==> r == 0.0
    ensures -40.0 <= deviation - r <= 40.0
    ensures deviation > 40.0 ==> deviation - r == 40.0
    ensures deviation < -40.0 ==> deviation - r == -40.0
  {
    if deviation < -40.0 then deviation + 40.0
    else if deviation > 40.0 then deviation - 40.0
    else 0.0
  }

  /** Hysteresis: after `cursorCenter -= DeadZone(deviation)`, the same view
      direction deviates from the new center by at most 40 degrees, and the new
      deviation is what the dead zone left over. */
  lemma {:induction false} DeadZoneSettles(yaw: real, center: real)
    ensures var d := Deviation(yaw, center);
            var d' := Deviation(yaw, center - DeadZone(d));
            d' == d - DeadZone(d) && -40.0 <= d' <= 40.0
  {
    var x := yaw + (180.0 - center);
    NormalizeYawIsMod360(x);
    var k := (x / 360.0).Floor;
    var d := Deviation(yaw, center);
    assert d == center - yaw + 360.0 * k as real;
    DeviationIsWrappedDifference(yaw, center - DeadZone(d), d - DeadZone(d), k);
  }

  /** The Y aim cursor: pitch clamped to [50, 90], re-centred on 70 and scaled
      so that the clamped range maps onto [-127, 127]. */
  function CursorY(pitch: real): (r: real)
    ensures -127.0 <= r <= 127.0
    ensures pitch <= 50.0 ==> r == -127.0
    ensures pitch >= 90.0 ==> r == 127.0
    ensures pitch == 70.0 ==> r == 0.0
  {
    (Clamp(pitch, 50.0, 90.0) - 70.0) / 20.0 * 127.0
  }

  /** Raising the pitch never lowers the Y cursor. */
  lemma CursorYMonotone(p: real, q: real)
    requires p <= q
    ensures CursorY(p) <= CursorY(q)
  {
  }
}
