/** The per-frame bookkeeping of `analyzeVideo`: four bounded histories of
    the tracked object's and the destination's centres and radii, the
    direction label, and the drive segment that `getObservedDriveDist`
    follows between a start and a stop of the object. Camera frames, the
    OpenCV detection and the statechart are outside: what they produce
    (centres, radii, the motion angle) comes in as parameters. */
module VideoAnalysis {
  import opened Optional
  import opened MotionTrack
  import opened CArith

  /** The label every frame starts from, and the one that means "not moving". */
  const Stationary := "Stationary"

  // ---------------------------------------------------------------------
  // getObservedDriveDist
  // ---------------------------------------------------------------------

  /** The state `getObservedDriveDist` keeps through its pointer arguments:
      where the current drive started (the origin when none is in progress),
      and the number and sum of the motion angles accepted along it. */
  datatype Segment = Segment(startCenter: Point, lenPath: int, totAngle: real)

  /** The drive starts: the last frame was stationary, this one is not, and
      no drive is in progress. */
  predicate Starts(seg: Segment, prevDirection: string, direction: string)
  {
    prevDirection == Stationary && direction != Stationary && seg.startCenter == Origin
  }

  /** The drive ends: the last frame was moving, this one is stationary, and
      a drive is in progress. */
  predicate Ends(seg: Segment, prevDirection: string, direction: string)
  {
    prevDirection != Stationary && direction == Stationary && seg.startCenter != Origin
  }

  /** The motion angle joins the drive's average: a drive is in progress
      and `avgAngle - angle <= angleBias`. The comparison is signed, as the
      source applies `fabs` to its boolean result; a NaN angle (None) never
      passes. */
  predicate Accepts(seg: Segment, angle: Option<real>, avgAngle: real, angleBias: real)
    ensures Accepts(seg, angle, avgAngle, angleBias) ==> angle.Some? && seg.startCenter != Origin
    ensures angleBias >= 0.0 && angle.Some? && angle.value >= avgAngle && seg.startCenter != Origin ==>
      Accepts(seg, angle, avgAngle, angleBias)
  {
    angle.Some? && avgAngle - angle.value <= angleBias && seg.startCenter != Origin
  }

  /** A distance in the image converted to centimetres: scaled by the
      object's real diameter over its diameter in the image (twice its
      radius); None when the radius is 0, where the float division gives an
      infinity or NaN. */
  function Scaled(dist: real, diameter: real, radius: real): Option<real>
  {
    if radius == 0.0 then None else Some(InCm(dist, diameter, radius))
  }

  /** The conversion itself: the distance times the real diameter over the
      image diameter. */
  function InCm(dist: real, diameter: real, radius: real): real
    requires radius != 0.0
  {
    dist * diameter / (2.0 * radius)
  }

  /** With a positive radius and a non-negative distance and diameter, the
      scaled distance is a non-negative number. */
  lemma ScaledNonNegative(dist: real, diameter: real, radius: real)
    requires radius > 0.0 && dist >= 0.0 && diameter >= 0.0
    ensures Scaled(dist, diameter, radius).Some? && Scaled(dist, diameter, radius).value >= 0.0
  {
    assert dist * diameter >= 0.0;
    assert 2.0 * radius > 0.0;
    assert InCm(dist, diameter, radius) == (dist * diameter) / (2.0 * radius);
  }

  /** `getObservedDriveDist` as a function of the segment before the call:
      the segment after it and the value returned. The returned `NULL` is
      0; the distance of a finished drive is the image distance `norm` from
      its start to the object scaled by the object's real diameter over its
      image diameter, None when the radius is 0 (a float division by zero). */
  function DriveDistStep(seg: Segment, prevDirection: string, direction: string,
                         objectCenter: Point, radius: real, angle: Option<real>,
                         avgAngle: real, angleBias: real, diameter: real,
                         norm: Point -> real): (step: (Segment, Option<real>))
    ensures !Ends(seg, prevDirection, direction) ==> step.1 == Some(0.0)
    ensures Ends(seg, prevDirection, direction) ==> step.0.startCenter == Origin
    ensures Starts(seg, prevDirection, direction) ==> step.0.startCenter == objectCenter
    ensures !Starts(seg, prevDirection, direction) && !Ends(seg, prevDirection, direction) ==>
      step.0.startCenter == seg.startCenter
  {
    if Starts(seg, prevDirection, direction) then
      if angle.None? then (Segment(objectCenter, 0, 0.0), Some(0.0))
      else (Segment(objectCenter, 1, angle.value), Some(0.0))
    else if Ends(seg, prevDirection, direction) then
      (seg.(startCenter := Origin), Scaled(norm(Sub(seg.startCenter, objectCenter)), diameter, radius))
    else if Accepts(seg, angle, avgAngle, angleBias) then
      (Segment(seg.startCenter, seg.lenPath + 1, seg.totAngle + angle.value), Some(0.0))
    else (seg, Some(0.0))
  }

  /** What the segment always satisfies: the count of accepted angles is
      never negative, and with no angle accepted their sum is 0, so
      `getAverageMotionAngle` gives their mean. */
  predicate SegmentInvariant(seg: Segment)
  {
    seg.lenPath >= 0 && (seg.lenPath == 0 ==> seg.totAngle == 0.0)
  }

  /** The start transition: the drive starts at the object, with the
      current angle as its only angle, or with none when it is NaN; the call
      returns 0. */
  lemma StartTransition(seg: Segment, prevDirection: string, direction: string,
                        objectCenter: Point, radius: real, angle: Option<real>,
                        avgAngle: real, angleBias: real, diameter: real, norm: Point -> real)
    requires Starts(seg, prevDirection, direction)
    ensures var (next, r) := DriveDistStep(seg, prevDirection, direction, objectCenter, radius,
                                           angle, avgAngle, angleBias, diameter, norm);
      next.startCenter == objectCenter && r == Some(0.0) &&
      next.lenPath == (if angle.None? then 0 else 1) &&
      next.totAngle == (if angle.None? then 0.0 else angle.value)
  {
  }

  /** The end transition: the drive is closed (its start goes back to the
      origin), its angle count and sum are kept, and the call returns the
      scaled distance from the start to the object. */
  lemma EndTransition(seg: Segment, prevDirection: string, direction: string,
                      objectCenter: Point, radius: real, angle: Option<real>,
                      avgAngle: real, angleBias: real, diameter: real, norm: Point -> real)
    requires Ends(seg, prevDirection, direction)
    ensures var (next, r) := DriveDistStep(seg, prevDirection, direction, objectCenter, radius,
                                           angle, avgAngle, angleBias, diameter, norm);
      next == Segment(Origin, seg.lenPath, seg.totAngle) &&
      r == Scaled(norm(Sub(seg.startCenter, objectCenter)), diameter, radius)
  {
  }

  /** Neither starting nor ending, the call returns 0 and changes the
      segment only by accepting the angle, which it does exactly when a
      drive is in progress and the signed test passes. */
  lemma OtherTransition(seg: Segment, prevDirection: string, direction: string,
                        objectCenter: Point, radius: real, angle: Option<real>,
                        avgAngle: real, angleBias: real, diameter: real, norm: Point -> real)
    requires !Starts(seg, prevDirection, direction) && !Ends(seg, prevDirection, direction)
    ensures var (next, r) := DriveDistStep(seg, prevDirection, direction, objectCenter, radius,
                                           angle, avgAngle, angleBias, diameter, norm);
      r == Some(0.0) &&
      next.startCenter == seg.startCenter &&
      (Accepts(seg, angle, avgAngle, angleBias) ==>
        next.lenPath == seg.lenPath + 1 && next.totAngle == seg.totAngle + angle.value) &&
      (!Accepts(seg, angle, avgAngle, angleBias) ==> next == seg)
  {
  }

  /** Every call keeps the segment invariant, and the initial segment of
      `analyzeVideo` satisfies it. */
  lemma InvariantKept(seg: Segment, prevDirection: string, direction: string,
                      objectCenter: Point, radius: real, angle: Option<real>,
                      avgAngle: real, angleBias: real, diameter: real, norm: Point -> real)
    requires SegmentInvariant(seg)
    ensures SegmentInvariant(Segment(Origin, 0, 0.0))
    ensures SegmentInvariant(DriveDistStep(seg, prevDirection, direction, objectCenter, radius,
                                           angle, avgAngle, angleBias, diameter, norm).0)
  {
  }

  /** A nonzero distance is reported only when a drive ends, and then no
      drive is in progress any more; with a positive radius and a
      non-negative norm and diameter it is non-negative. */
  lemma DistanceOnlyAtEnd(seg: Segment, prevDirection: string, direction: string,
                          objectCenter: Point, radius: real, angle: Option<real>,
                          avgAngle: real, angleBias: real, diameter: real, norm: Point -> real)
    ensures var (next, r) := DriveDistStep(seg, prevDirection, direction, objectCenter, radius,
                                           angle, avgAngle, angleBias, diameter, norm);
      (r != Some(0.0) ==> Ends(seg, prevDirection, direction) && next.startCenter == Origin) &&
      (radius > 0.0 && diameter >= 0.0 && norm(Sub(seg.startCenter, objectCenter)) >= 0.0 ==>
        r.Some? && r.value >= 0.0)
  {
    if radius > 0.0 && diameter >= 0.0 && norm(Sub(seg.startCenter, objectCenter)) >= 0.0 {
      ScaledNonNegative(norm(Sub(seg.startCenter, objectCenter)), diameter, radius);
    }
  }

  // ---------------------------------------------------------------------
  // The analysis loop of analyzeVideo
  // ---------------------------------------------------------------------

  /** What one frame hands on to the statechart and the perspective
      estimate: the direction label, the distance of a finished drive, and
      the averaged centres and radii (None where the source divides by a
      size of 0 and gets NaN). */
  datatype FrameReport = FrameReport(
    direction: string,
    dist: Option<real>,
    avgCenterPoint: Option<Point>,
    avgDestPoint: Option<Point>,
    avgObjectRadius: Option<real>,
    avgDestRadius: Option<real>)

  /** The locals of `analyzeVideo` that live from frame to frame. The four
      deques are the histories `objectPoints`, `destPoints`, `objectRadii`
      and `destRadii`. */
  class Tracker {
    var objectPoints: seq<Point>
    var destPoints: seq<Point>
    var objectRadii: seq<real>
    var destRadii: seq<real>
    var prevDirection: string
    var startCenter: Point
    var lenPath: int
    var totAngle: real
    var avgAngle: real

    /** `MAXQUEUESIZE`, the biases of `detectDirection` and
        `getObservedDriveDist`, and `ACTUAL_DIAMETER_IN_CM`. */
    const maxQueueSize: nat
    const xBias: int
    const yBias: int
    const angleBias: real
    const diameter: real

    /** No deque holds more than `MAXQUEUESIZE` samples, and the segment
        keeps its invariant. */
    predicate Valid()
      reads this
    {
      |objectPoints| <= maxQueueSize && |destPoints| <= maxQueueSize &&
      |objectRadii| <= maxQueueSize && |destRadii| <= maxQueueSize &&
      SegmentInvariant(Segment(startCenter, lenPath, totAngle))
    }

    /** The state before the first frame. */
    constructor (maxQueueSize: nat, xBias: int, yBias: int, angleBias: real, diameter: real)
      ensures Valid()
      ensures objectPoints == [] && destPoints == [] && objectRadii == [] && destRadii == []
      ensures prevDirection == Stationary && startCenter == Origin
      ensures lenPath == 0 && totAngle == 0.0 && avgAngle == 0.0
      ensures this.maxQueueSize == maxQueueSize && this.xBias == xBias && this.yBias == yBias
      ensures this.angleBias == angleBias && this.diameter == diameter
    {
      objectPoints, destPoints, objectRadii, destRadii := [], [], [], [];
      prevDirection := Stationary;
      startCenter := Origin;
      lenPath, totAngle, avgAngle := 0, 0.0, 0.0;
      this.maxQueueSize := maxQueueSize;
      this.xBias, this.yBias := xBias, yBias;
      this.angleBias, this.diameter := angleBias, diameter;
    }

    /** `getObservedDriveDist`, updating the segment in place. */
    method ObservedDriveDist(prevDirection: string, direction: string, objectCenter: Point,
                             radius: real, angle: Option<real>, avgAngle: real,
                             norm: Point -> real)
      returns (dist: Option<real>)
      modifies this`startCenter, this`lenPath, this`totAngle
      ensures (Segment(startCenter, lenPath, totAngle), dist) ==
        DriveDistStep(Segment(old(startCenter), old(lenPath), old(totAngle)), prevDirection, direction,
                      objectCenter, radius, angle, avgAngle, angleBias, diameter, norm)
    {
      if prevDirection == Stationary && direction != Stationary && startCenter == Origin {
        startCenter := objectCenter;
        if angle.None? {
          lenPath := 0;
          totAngle := 0.0;
        } else {
          lenPath := 1;
          totAngle := angle.value;
        }
        return Some(0.0);
      }
      if prevDirection != Stationary && direction == Stationary && startCenter != Origin {
        var d := norm(Sub(startCenter, objectCenter));
        startCenter := Origin;
        if radius == 0.0 {
          return None;
        }
        var distInCm := InCm(d, diameter, radius);
        return Some(distInCm);
      }
      if angle.Some? && avgAngle - angle.value <= angleBias && startCenter != Origin {
        totAngle := totAngle + angle.value;
        lenPath := lenPath + 1;
      }
      return Some(0.0);
    }

    /** Pushes this frame's samples at the back of the four deques. */
    method PushSamples(objectCenter: Point, destCenter: Point, objectRadius: real, destRadius: real)
      modifies this`objectPoints, this`destPoints, this`objectRadii, this`destRadii
      ensures objectPoints == old(objectPoints) + [objectCenter]
      ensures destPoints == old(destPoints) + [destCenter]
      ensures objectRadii == old(objectRadii) + [objectRadius]
      ensures destRadii == old(destRadii) + [destRadius]
    {
      objectPoints := objectPoints + [objectCenter];
      destPoints := destPoints + [destCenter];
      objectRadii := objectRadii + [objectRadius];
      destRadii := destRadii + [destRadius];
    }

    /** Pops the front of each deque whose size before the push had reached
        `MAXQUEUESIZE`. */
    method PopSamples(obPtSize: int, destPtSize: int, objectRadiiSize: int, destRadiiSize: int)
      requires obPtSize >= maxQueueSize ==> objectPoints != []
      requires destPtSize >= maxQueueSize ==> destPoints != []
      requires objectRadiiSize >= maxQueueSize ==> objectRadii != []
      requires destRadiiSize >= maxQueueSize ==> destRadii != []
      modifies this`objectPoints, this`destPoints, this`objectRadii, this`destRadii
      ensures objectPoints == if obPtSize >= maxQueueSize then old(objectPoints)[1..] else old(objectPoints)
      ensures destPoints == if destPtSize >= maxQueueSize then old(destPoints)[1..] else old(destPoints)
      ensures objectRadii == if objectRadiiSize >= maxQueueSize then old(objectRadii)[1..] else old(objectRadii)
      ensures destRadii == if destRadiiSize >= maxQueueSize then old(destRadii)[1..] else old(destRadii)
    {
      if obPtSize >= maxQueueSize {
        objectPoints := objectPoints[1..];
      }
      if destPtSize >= maxQueueSize {
        destPoints := destPoints[1..];
      }
      if objectRadiiSize >= maxQueueSize {
        objectRadii := objectRadii[1..];
      }
      if destRadiiSize >= maxQueueSize {
        destRadii := destRadii[1..];
      }
    }

    /** The work of one frame between the push and the pop: the direction
        is taken from the object's history (its newest point against the one
        ten places earlier), the segment is advanced with the previous
        average angle, the averages are taken over the samples before this
        frame's, and the average angle is updated. */
    method Analyze(obPtSize: int, destPtSize: int, objectRadiiSize: int, destRadiiSize: int,
                   objectCenter: Point, objectRadius: real, angle: Option<real>,
                   norm: Point -> real)
      returns (report: FrameReport)
      requires 0 <= obPtSize == |objectPoints| - 1 && 0 <= destPtSize == |destPoints| - 1
      requires 0 <= objectRadiiSize == |objectRadii| - 1 && 0 <= destRadiiSize == |destRadii| - 1
      requires objectPoints[obPtSize] == objectCenter
      requires SegmentInvariant(Segment(startCenter, lenPath, totAngle))
      modifies this`startCenter, this`lenPath, this`totAngle, this`prevDirection, this`avgAngle
      ensures report.direction == DetectDirection(objectPoints, obPtSize, Stationary, xBias, yBias)
      ensures prevDirection == report.direction
      ensures (Segment(startCenter, lenPath, totAngle), report.dist) ==
        DriveDistStep(Segment(old(startCenter), old(lenPath), old(totAngle)), old(prevDirection),
                      report.direction, objectCenter, objectRadius, angle, old(avgAngle),
                      angleBias, diameter, norm)
      ensures SegmentInvariant(Segment(startCenter, lenPath, totAngle))
      ensures avgAngle == AverageMotionAngle(totAngle, lenPath)
      ensures report.avgCenterPoint == MeanPoint(objectPoints[..obPtSize])
      ensures report.avgDestPoint == MeanPoint(destPoints[..destPtSize])
      ensures report.avgObjectRadius == Mean(objectRadii[..objectRadiiSize])
      ensures report.avgDestRadius == Mean(destRadii[..destRadiiSize])
    {
      var direction := Stationary;
      direction := DetectDirection(objectPoints, obPtSize, direction, xBias, yBias);
      ghost var seg := Segment(startCenter, lenPath, totAngle);
      var dist := ObservedDriveDist(prevDirection, direction, objectCenter, objectRadius,
                                    angle, avgAngle, norm);
      InvariantKept(seg, old(prevDirection), direction, objectCenter, objectRadius, angle,
                    old(avgAngle), angleBias, diameter, norm);
      prevDirection := direction;
      var avgCenterPoint := AveragePoint(objectPoints, obPtSize);
      var avgDestPoint := AveragePoint(destPoints, destPtSize);
      var avgObjectRadius := AverageRadius(objectRadii, objectRadiiSize);
      var avgDestRadius := AverageRadius(destRadii, destRadiiSize);
      avgAngle := AverageMotionAngle(totAngle, lenPath);
      report := FrameReport(direction, dist, avgCenterPoint, avgDestPoint,
                            avgObjectRadius, avgDestRadius);
    }

    /** One pass of the loop of `analyzeVideo` after detection: the label
        starts as "Stationary", the samples are pushed, the frame is
        analysed, and the deques are trimmed back to `MAXQUEUESIZE`, so
        that each keeps the last `MAXQUEUESIZE` samples. */
    method ProcessFrame(objectCenter: Point, objectRadius: real, destCenter: Point,
                        destRadius: real, angle: Option<real>, norm: Point -> real)
      returns (report: FrameReport)
      requires Valid()
      modifies this
      ensures Valid()
      ensures objectPoints == Recent(old(objectPoints) + [objectCenter], maxQueueSize)
      ensures destPoints == Recent(old(destPoints) + [destCenter], maxQueueSize)
      ensures objectRadii == Recent(old(objectRadii) + [objectRadius], maxQueueSize)
      ensures destRadii == Recent(old(destRadii) + [destRadius], maxQueueSize)
      ensures report.direction ==
        DetectDirection(old(objectPoints) + [objectCenter], |old(objectPoints)|, Stationary, xBias, yBias)
      ensures prevDirection == report.direction
      ensures (Segment(startCenter, lenPath, totAngle), report.dist) ==
        DriveDistStep(Segment(old(startCenter), old(lenPath), old(totAngle)), old(prevDirection),
                      report.direction, objectCenter, objectRadius, angle, old(avgAngle),
                      angleBias, diameter, norm)
      ensures avgAngle == AverageMotionAngle(totAngle, lenPath)
      ensures report.avgCenterPoint == MeanPoint(old(objectPoints))
      ensures report.avgDestPoint == MeanPoint(old(destPoints))
      ensures report.avgObjectRadius == Mean(old(objectRadii))
      ensures report.avgDestRadius == Mean(old(destRadii))
    {
      var obPtSize, destPtSize := |objectPoints|, |destPoints|;
      var objectRadiiSize, destRadiiSize := |objectRadii|, |destRadii|;
      PushPop(objectPoints, objectCenter, maxQueueSize);
      PushPop(destPoints, destCenter, maxQueueSize);
      PushPop(objectRadii, objectRadius, maxQueueSize);
      PushPop(destRadii, destRadius, maxQueueSize);
      PushSamples(objectCenter, destCenter, objectRadius, destRadius);
      report := Analyze(obPtSize, destPtSize, objectRadiiSize, destRadiiSize,
                        objectCenter, objectRadius, angle, norm);
      PopSamples(obPtSize, destPtSize, objectRadiiSize, destRadiiSize);
    }
  }

  /** For a deque within its bound: pushing x and popping the front when
      the deque had already reached k keeps the last k samples; and the
      samples before the push are its first ones. */
  lemma PushPop<T>(deque: seq<T>, x: T, k: nat)
    requires |deque| <= k
    ensures (deque + [x])[..|deque|] == deque
    ensures Recent(deque + [x], k) == if |deque| >= k then (deque + [x])[1..] else deque + [x]
  {
  }

  /** The deque of `analyzeVideo` after the first n samples of a stream,
      pushed one frame at a time from an empty deque and trimmed to k after
      each push, as `ProcessFrame` does. */
  function Deque<T>(samples: seq<T>, n: nat, k: nat): seq<T>
    requires n <= |samples|
  {
    if n == 0 then [] else Recent(Deque(samples, n - 1, k) + [samples[n - 1]], k)
  }

  /** Trimming the history to k before a push does not change what the
      trimmed history after the push holds. */
  lemma RecentOfRecent<T>(s: seq<T>, x: T, k: nat)
    ensures Recent(Recent(s, k) + [x], k) == Recent(s + [x], k)
  {
    RecentPush(s, x, k);
    var t := Recent(s, k) + [x];
    assert |t| <= k + 1;
  }

  /** Frame by frame, the deque is the last k samples of the whole stream. */
  lemma {:induction false} DequeIsRecent<T>(samples: seq<T>, n: nat, k: nat)
    requires n <= |samples|
    ensures Deque(samples, n, k) == Recent(samples[..n], k)
  {
    if n > 0 {
      var prefix, x := samples[..n - 1], samples[n - 1];
      calc {
        Deque(samples, n, k);
        Recent(Deque(samples, n - 1, k) + [x], k);
        { DequeIsRecent(samples, n - 1, k); }
        Recent(Recent(prefix, k) + [x], k);
        { RecentOfRecent(prefix, x, k); }
        Recent(prefix + [x], k);
        { assert prefix + [x] == samples[..n]; }
        Recent(samples[..n], k);
      }
    }
  }

  /** After n frames each deque holds min(n, `MAXQUEUESIZE`) samples: the
      most recent ones, in the order they were pushed. */
  lemma HistoryContents<T>(samples: seq<T>, k: nat)
    ensures |Deque(samples, |samples|, k)| == Min(|samples|, k)
    ensures forall p :: 0 <= p < |Deque(samples, |samples|, k)| ==>
      Deque(samples, |samples|, k)[p] == samples[|samples| - |Deque(samples, |samples|, k)| + p]
  {
    DequeIsRecent(samples, |samples|, k);
    assert samples[..|samples|] == samples;
    RecentElements(samples, k);
  }
}
