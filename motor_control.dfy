/** Servo command arithmetic of the Maestro motor controller: angle
    normalisation, the wheel speeds and run time chosen for a turn or a
    drive, and the sequences of USB control transfers sent to the servos.

    A control transfer is not performed here: `replies(k)` is the value the
    k-th transfer of an operation returns (negative on failure), and each
    operation returns the list of events it issued, in order. */
module MotorControl {
  import opened CArith

  /** One observable action: a control transfer that sets `servo` to
      `value`, or a pause of `ms` milliseconds. */
  datatype Event = Transfer(servo: nat, value: int) | Pause(ms: int)

  /** Speeds (servo pulse values) of the right and left wheels and how long,
      in milliseconds, they run before the motors are stopped. */
  datatype WheelPlan = WheelPlan(rSpeed: int, lSpeed: int, timer: int)

  function RealAbs(x: real): (r: real)
    ensures r >= 0.0 && (r == x || r == -x)
  {
    if x < 0.0 then -x else x
  }

  // ---------------------------------------------------------------------
  // Angle normalisation
  // ---------------------------------------------------------------------

  /** Reduces an angle with C's `%` by 360 and then folds it by 180 (not by
      360). The result lies in [-179, 180], inside the documented
      [-180, 180]. */
  function NormalizeAngle(angle: int): (r: int)
    ensures -179 <= r <= 180
  {
    var a := CRem(angle, 360);
    if a <= -180 then a + 180
    else if a > 180 then a - 180
    else a
  }

  /** Angles already in [-179, 180] are left alone. */
  lemma NormalizeAngleIdentity(angle: int)
    requires -179 <= angle <= 180
    ensures NormalizeAngle(angle) == angle
  {
  }

  lemma NormalizeAngleIdempotent(angle: int)
    ensures NormalizeAngle(NormalizeAngle(angle)) == NormalizeAngle(angle)
  {
    NormalizeAngleIdentity(NormalizeAngle(angle));
  }

  /** The result differs from the input by a multiple of 180 degrees. */
  lemma NormalizeAngleMod180(angle: int)
    ensures (NormalizeAngle(angle) - angle) % 180 == 0
  {
    var q := CDiv(angle, 360);
    var a := CRem(angle, 360);
    assert angle == q * 360 + a;
    var m := if a <= -180 then 1 - 2 * q else if a > 180 then -1 - 2 * q else -2 * q;
    assert NormalizeAngle(angle) - angle == m * 180;
    MultipleOf180(m);
  }

  lemma MultipleOf180(m: int)
    ensures (m * 180) % 180 == 0
  {
  }

  /** Folding by 180 reverses the sense of some turns: 270 degrees (right)
      becomes 90 degrees (right) rather than -90, and -270 becomes -90
      rather than 90; -180 becomes 0. */
  lemma NormalizeAngleNotMod360()
    ensures NormalizeAngle(270) == 90
    ensures NormalizeAngle(-270) == -90
    ensures NormalizeAngle(-180) == 0
    ensures (NormalizeAngle(270) - 270) % 360 != 0
  {
  }

  // ---------------------------------------------------------------------
  // Speed and timer selection
  // ---------------------------------------------------------------------

  /** Wheel plan of `turn`: both wheels at 1490 +/- 225 and a run time of
      1.91 s per 360 degrees for right turns, 2.09 s per 360 degrees
      otherwise, truncated to whole milliseconds. */
  function TurnPlan(angle: int): (p: WheelPlan)
    ensures p.rSpeed == p.lSpeed
    ensures p.timer >= 0
  {
    var norm := NormalizeAngle(angle);
    var percentSpeed := 450.0 * 0.5;
    if norm > 0 then
      WheelPlan(Trunc(1490.0 + percentSpeed), Trunc(1490.0 + percentSpeed),
                Trunc((Abs(norm) as real / 360.0) * 1.91 * 1000.0))
    else
      WheelPlan(Trunc(1490.0 - percentSpeed), Trunc(1490.0 - percentSpeed),
                Trunc((Abs(norm) as real / 360.0) * 2.09 * 1000.0))
  }

  /** Both wheels get the same speed, 1715 exactly for right turns and 1265
      exactly otherwise. */
  lemma TurnSpeeds(angle: int)
    ensures TurnPlan(angle).rSpeed == TurnPlan(angle).lSpeed
    ensures TurnPlan(angle).rSpeed == 1715 <==> NormalizeAngle(angle) > 0
    ensures TurnPlan(angle).rSpeed == 1265 <==> NormalizeAngle(angle) <= 0
  {
  }

  /** The turn timer is never negative, is zero exactly when there is
      nothing to turn, and is at most the time of a half turn. */
  lemma TurnTimer(angle: int)
    ensures 0 <= TurnPlan(angle).timer <= 1045
    ensures TurnPlan(angle).timer == 0 <==> NormalizeAngle(angle) == 0
  {
    var n := NormalizeAngle(angle);
    var a := Abs(n) as real;
    if n > 0 {
      assert a * 1910.0 / 360.0 == (a / 360.0) * 1.91 * 1000.0;
      TruncMonotone((a / 360.0) * 1.91 * 1000.0, 955.0);
      TruncMonotone(1910.0 / 360.0, (a / 360.0) * 1.91 * 1000.0);
    } else if n < 0 {
      TruncMonotone((a / 360.0) * 2.09 * 1000.0, 1045.0);
      TruncMonotone(2090.0 / 360.0, (a / 360.0) * 2.09 * 1000.0);
    }
  }

  /** Wheel plan of `drive`: wheels counter-rotate around 1465 (forward) or
      1515 (backward) by 450 * percent, and run 2.65 s per 30.5 cm. */
  function DrivePlan(distance: real, percent: real): (p: WheelPlan)
    ensures p.timer >= 0
    ensures distance == 0.0 ==> p.timer == 0
  {
    var percentSpeed := 450.0 * percent;
    var timer := Trunc((RealAbs(distance) / 30.5) * 2.65 * 1000.0);
    if distance > 0.0 then
      WheelPlan(Trunc(1465.0 + percentSpeed), Trunc(1465.0 - percentSpeed), timer)
    else
      WheelPlan(Trunc(1515.0 - percentSpeed), Trunc(1515.0 + percentSpeed), timer)
  }

  /** For a non-negative percentage, forward drives put the left wheel at or
      below 1465 and the right wheel at or above it; backward drives mirror
      this around 1515. */
  lemma DriveSpeeds(distance: real, percent: real)
    requires percent >= 0.0
    ensures distance > 0.0 ==>
      DrivePlan(distance, percent).lSpeed <= 1465 <= DrivePlan(distance, percent).rSpeed
    ensures distance <= 0.0 ==>
      DrivePlan(distance, percent).rSpeed <= 1515 <= DrivePlan(distance, percent).lSpeed
  {
    var ps := 450.0 * percent;
    TruncMonotone(1465.0 - ps, 1465.0);
    TruncMonotone(1465.0, 1465.0 + ps);
    TruncMonotone(1515.0 - ps, 1515.0);
    TruncMonotone(1515.0, 1515.0 + ps);
  }

  /** The drive timer is never negative, does not depend on the speed, and
      grows with the absolute distance. */
  lemma DriveTimerMonotone(d1: real, d2: real, p1: real, p2: real)
    requires RealAbs(d1) <= RealAbs(d2)
    ensures 0 <= DrivePlan(d1, p1).timer <= DrivePlan(d2, p2).timer
  {
    TruncMonotone((RealAbs(d1) / 30.5) * 2.65 * 1000.0, (RealAbs(d2) / 30.5) * 2.65 * 1000.0);
  }

  // ---------------------------------------------------------------------
  // Transfer sequences
  // ---------------------------------------------------------------------

  /** Sets servos 0, 2, 4 and 6, in that order, to 4 * speed, stopping at
      the first transfer that fails. Returns -1 on failure, otherwise what
      the last transfer returned. */
  method StartMotors(speed: int, replies: nat -> int) returns (sent: seq<Event>, r: int)
    ensures 1 <= |sent| <= 4
    ensures forall k :: 0 <= k < |sent| ==> sent[k] == Transfer(2 * k, 4 * speed)
    ensures forall k :: 0 <= k < |sent| - 1 ==> replies(k) >= 0
    ensures r < 0 <==> replies(|sent| - 1) < 0
    ensures r < 0 ==> r == -1
    ensures r >= 0 ==> |sent| == 4 && r == replies(3)
  {
    sent := [];
    r := 0;
    var i := 0;
    while i < 8
      invariant 0 <= i <= 8 && i % 2 == 0
      invariant |sent| == i / 2
      invariant forall k :: 0 <= k < |sent| ==> sent[k] == Transfer(2 * k, 4 * speed)
      invariant forall k :: 0 <= k < |sent| ==> replies(k) >= 0
      invariant i > 0 ==> r == replies(i / 2 - 1)
    {
      sent := sent + [Transfer(i, 4 * speed)];
      r := replies(i / 2);
      if r < 0 {
        r := -1;
        return;
      }
      i := i + 2;
    }
  }

  /** Sets servo 0 (right wheel) to 4 * rSpeed and then servo 4 (left
      wheel) to 4 * lSpeed; the second transfer is not sent when the first
      fails. Returns -1 on failure, otherwise what the second transfer
      returned. */
  method MotorOneDirection(rSpeed: int, lSpeed: int, replies: nat -> int)
    returns (sent: seq<Event>, r: int)
    ensures 1 <= |sent| <= 2 && sent[0] == Transfer(0, 4 * rSpeed)
    ensures |sent| == 2 <==> replies(0) >= 0
    ensures |sent| == 2 ==> sent[1] == Transfer(4, 4 * lSpeed)
    ensures r < 0 <==> replies(|sent| - 1) < 0
    ensures r < 0 ==> r == -1
    ensures r >= 0 ==> r == replies(1)
  {
    sent := [Transfer(0, 4 * rSpeed)];
    r := replies(0);
    if r < 0 {
      r := -1;
      return;
    }
    sent := sent + [Transfer(4, 4 * lSpeed)];
    r := replies(1);
    if r < 0 {
      r := -1;
    }
  }

  /** The turn command sequence; in the source its body is the same as that
      of `motorOneDirection`. */
  method MotorTurn(rSpeed: int, lSpeed: int, replies: nat -> int)
    returns (sent: seq<Event>, r: int)
    ensures 1 <= |sent| <= 2 && sent[0] == Transfer(0, 4 * rSpeed)
    ensures |sent| == 2 <==> replies(0) >= 0
    ensures |sent| == 2 ==> sent[1] == Transfer(4, 4 * lSpeed)
    ensures r < 0 <==> replies(|sent| - 1) < 0
    ensures r < 0 ==> r == -1
    ensures r >= 0 ==> r == replies(1)
  {
    sent, r := MotorOneDirection(rSpeed, lSpeed, replies);
  }

  /** Whether `events` is: the wheel transfers of `p` (only the first when
      it failed, as `failed` says), a pause of `p.timer`, and then the stop
      transfers to servos 0, 2, 4, 6 in order, which go on to all four
      unless one fails: every stop transfer but the last succeeded, and
      fewer than four were sent only when the last one failed. The reply to
      the transfer at position j + 1 is `replies(j)`. */
  ghost predicate RunThenStop(events: seq<Event>, p: WheelPlan, failed: bool, replies: nat -> int)
  {
    var n := if failed then 1 else 2;
    n + 1 < |events| <= n + 5 &&
    events[0] == Transfer(0, 4 * p.rSpeed) &&
    (n == 2 ==> events[1] == Transfer(4, 4 * p.lSpeed)) &&
    events[n] == Pause(p.timer) &&
    (forall k :: n < k < |events| ==> events[k] == Transfer(2 * (k - n - 1), 0)) &&
    (forall j :: n <= j < |events| - 2 ==> replies(j) >= 0) &&
    (|events| < n + 5 ==> replies(|events| - 2) < 0)
  }

  /** The replies to the stop transfers, read from `stopReplies`, are the
      replies at positions `n`, `n + 1`, ... of the whole exchange. */
  lemma StopRepliesShifted(n: nat, stopped: seq<Event>, replies: nat -> int, stopReplies: nat -> int)
    requires forall k: nat :: stopReplies(k) == replies(k + n)
    requires |stopped| >= 1
    requires forall k :: 0 <= k < |stopped| - 1 ==> stopReplies(k) >= 0
    requires |stopped| < 4 ==> stopReplies(|stopped| - 1) < 0
    ensures forall j :: n <= j < n + |stopped| - 1 ==> replies(j) >= 0
    ensures |stopped| < 4 ==> replies(n + |stopped| - 1) < 0
  {
    forall j | n <= j < n + |stopped| - 1
      ensures replies(j) >= 0
    {
      assert stopReplies(j - n) >= 0;
    }
    if |stopped| < 4 {
      assert stopReplies(|stopped| - 1) == replies(n + |stopped| - 1);
    }
  }

  /** Turns by `angle` degrees: starts the wheels as `TurnPlan` says, waits
      for its timer, stops all motors, and returns 0 whatever the transfers
      returned. */
  method Turn(angle: int, replies: nat -> int) returns (events: seq<Event>, r: int)
    ensures r == 0
    ensures RunThenStop(events, TurnPlan(angle), replies(0) < 0, replies)
  {
    var p := TurnPlan(angle);
    var started, ignored := MotorTurn(p.rSpeed, p.lSpeed, replies);
    var n: nat := |started|;
    var stopReplies := (k: nat) => replies(k + n);
    var stopped, ignoredStop := StartMotors(0, stopReplies);
    events := started + [Pause(p.timer)] + stopped;
    StopRepliesShifted(n, stopped, replies, stopReplies);
    r := 0;
  }

  /** Drives `distance` cm at `percent` of full speed: starts the wheels as
      `DrivePlan` says, waits for its timer, stops all motors, and returns 0
      whatever the transfers returned. */
  method Drive(distance: real, percent: real, replies: nat -> int)
    returns (events: seq<Event>, r: int)
    ensures r == 0
    ensures RunThenStop(events, DrivePlan(distance, percent), replies(0) < 0, replies)
  {
    var p := DrivePlan(distance, percent);
    var started, ignored := MotorOneDirection(p.rSpeed, p.lSpeed, replies);
    var n: nat := |started|;
    var stopReplies := (k: nat) => replies(k + n);
    var stopped, ignoredStop := StartMotors(0, stopReplies);
    events := started + [Pause(p.timer)] + stopped;
    StopRepliesShifted(n, stopped, replies, stopReplies);
    r := 0;
  }
}
