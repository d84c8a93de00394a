/** The self-contained logic of the vision tracker: the direction label
    chosen from the last ten tracked points, the averages over the sample
    history, the selection of the largest contours, and the layout of the
    HSV calibration file. Images, contours and OpenCV calls stay outside:
    their results (points, radii, areas) are inputs. */
module MotionTrack {
  import opened Optional
  import opened CArith
  import opened CText

  /** A `Point2f`, with its float coordinates as reals. */
  datatype Point = Point(x: real, y: real)

  /** `Point2f()`: the origin, which the segment logic also uses to mean
      "no segment in progress". */
  const Origin := Point(0.0, 0.0)

  function Add(a: Point, b: Point): Point
  {
    Point(a.x + b.x, a.y + b.y)
  }

  function Sub(a: Point, b: Point): Point
  {
    Point(a.x - b.x, a.y - b.y)
  }

  // ---------------------------------------------------------------------
  // detectDirection
  // ---------------------------------------------------------------------

  /** The east-west part of the label: empty unless |dX| exceeds the bias. */
  function LatLabel(dX: int, xBias: int): string
  {
    if Abs(dX) > xBias then (if dX > 0 then "West" else "East") else ""
  }

  /** The north-south part of the label: empty unless |dY| exceeds the bias. */
  function LongLabel(dY: int, yBias: int): string
  {
    if Abs(dY) > yBias then (if dY > 0 then "North" else "South") else ""
  }

  /** The label for a displacement (dX, dY): the north-south part, a "-"
      and the east-west part when both fire, the one that fires otherwise,
      and the direction passed in when neither does. */
  function Label(dX: int, dY: int, direction: string, xBias: int, yBias: int): (r: string)
    ensures Abs(dX) <= xBias && Abs(dY) <= yBias ==> r == direction
    ensures Abs(dX) > xBias || Abs(dY) > yBias ==> ReadLabel(r).Some? && r != "Stationary"
  {
    var lat, long := LatLabel(dX, xBias), LongLabel(dY, yBias);
    if long != "" && lat != "" then
      assert "North" + "-" + "East" == "North-East";
      assert "North" + "-" + "West" == "North-West";
      assert "South" + "-" + "East" == "South-East";
      assert "South" + "-" + "West" == "South-West";
      long + "-" + lat
    else if long != "" then long
    else if lat != "" then lat
    else direction
  }

  /** `detectDirection`: with more than ten points, the displacement from
      the newest point `points[ptSize]` back to `points[ptSize - 10]`,
      truncated to ints, picks the label; with at most ten points the
      direction passed in is kept. */
  function DetectDirection(points: seq<Point>, ptSize: int, direction: string,
                           xBias: int, yBias: int): (r: string)
    requires |points| > 10 ==> 10 <= ptSize < |points|
    ensures |points| <= 10 ==> r == direction
  {
    if |points| > 10 then
      Label(Trunc(points[ptSize - 10].x - points[ptSize].x),
            Trunc(points[ptSize - 10].y - points[ptSize].y), direction, xBias, yBias)
    else direction
  }

  datatype NorthSouth = NoNorthSouth | North | South
  datatype EastWest = NoEastWest | East | West

  /** What a direction label says about each axis. */
  datatype Heading = Heading(ns: NorthSouth, ew: EastWest)

  /** Reads one of the nine labels the tracker uses; None for anything else. */
  function ReadLabel(text: string): Option<Heading>
  {
    if text == "Stationary" then Some(Heading(NoNorthSouth, NoEastWest))
    else if text == "North" then Some(Heading(North, NoEastWest))
    else if text == "South" then Some(Heading(South, NoEastWest))
    else if text == "East" then Some(Heading(NoNorthSouth, East))
    else if text == "West" then Some(Heading(NoNorthSouth, West))
    else if text == "North-East" then Some(Heading(North, East))
    else if text == "North-West" then Some(Heading(North, West))
    else if text == "South-East" then Some(Heading(South, East))
    else if text == "South-West" then Some(Heading(South, West))
    else None
  }

  /** The label names exactly the axes whose displacement exceeds its bias:
      West iff dX > x_bias, East iff dX < -x_bias (or dX == 0 with a negative
      bias), and likewise North and South for dY. When neither axis fires,
      the direction passed in is kept; from "Stationary" that reads as no
      motion at all. */
  lemma LabelAxes(dX: int, dY: int, direction: string, xBias: int, yBias: int)
    ensures Abs(dX) <= xBias && Abs(dY) <= yBias ==> Label(dX, dY, direction, xBias, yBias) == direction
    ensures Abs(dX) > xBias || Abs(dY) > yBias || direction == "Stationary" ==>
      var h := ReadLabel(Label(dX, dY, direction, xBias, yBias));
      h.Some? &&
      (h.value.ew == West <==> Abs(dX) > xBias && dX > 0) &&
      (h.value.ew == East <==> Abs(dX) > xBias && dX <= 0) &&
      (h.value.ns == North <==> Abs(dY) > yBias && dY > 0) &&
      (h.value.ns == South <==> Abs(dY) > yBias && dY <= 0)
  {
    var lat, long := LatLabel(dX, xBias), LongLabel(dY, yBias);
    if long != "" && lat != "" {
      assert "North" + "-" + "East" == "North-East";
      assert "North" + "-" + "West" == "North-West";
      assert "South" + "-" + "East" == "South-East";
      assert "South" + "-" + "West" == "South-West";
    }
  }

  /** `detectDirection` with more than ten points labels the truncated
      displacement from the newest point back to the one ten frames
      earlier. */
  lemma DirectionLabel(points: seq<Point>, ptSize: int, direction: string, xBias: int, yBias: int)
    requires |points| > 10 && 10 <= ptSize < |points|
    ensures var dX := Trunc(points[ptSize - 10].x - points[ptSize].x);
            var dY := Trunc(points[ptSize - 10].y - points[ptSize].y);
            var r := DetectDirection(points, ptSize, direction, xBias, yBias);
            (Abs(dX) <= xBias && Abs(dY) <= yBias ==> r == direction) &&
            (Abs(dX) > xBias || Abs(dY) > yBias || direction == "Stationary" ==>
              ReadLabel(r).Some? &&
              (ReadLabel(r).value.ew == West <==> Abs(dX) > xBias && dX > 0) &&
              (ReadLabel(r).value.ew == East <==> Abs(dX) > xBias && dX <= 0) &&
              (ReadLabel(r).value.ns == North <==> Abs(dY) > yBias && dY > 0) &&
              (ReadLabel(r).value.ns == South <==> Abs(dY) > yBias && dY <= 0))
  {
    LabelAxes(Trunc(points[ptSize - 10].x - points[ptSize].x),
              Trunc(points[ptSize - 10].y - points[ptSize].y), direction, xBias, yBias);
  }

  // ---------------------------------------------------------------------
  // Averages
  // ---------------------------------------------------------------------

  /** `getAverageMotionAngle`: the mean of the accepted angles, and exactly
      0 when none was accepted. */
  function AverageMotionAngle(totAngle: real, lenPath: int): (avg: real)
    ensures lenPath == 0 ==> avg == 0.0
    ensures lenPath != 0 ==> avg * lenPath as real == totAngle
  {
    if lenPath != 0 then totAngle / lenPath as real else 0.0
  }

  function Sum(s: seq<real>): real
  {
    if s == [] then 0.0 else Sum(s[..|s| - 1]) + s[|s| - 1]
  }

  /** The arithmetic mean; None for no values, where the source's float
      division 0/0 gives NaN. */
  function Mean(s: seq<real>): Option<real>
  {
    if s == [] then None else Some(Sum(s) / |s| as real)
  }

  /** The sum of a sequence of points, coordinate by coordinate. */
  function Total(s: seq<Point>): Point
  {
    if s == [] then Origin else Add(Total(s[..|s| - 1]), s[|s| - 1])
  }

  /** The mean point; None for no points (both coordinates NaN). */
  function MeanPoint(s: seq<Point>): Option<Point>
  {
    if s == [] then None
    else Some(Point(Total(s).x / |s| as real, Total(s).y / |s| as real))
  }

  function Xs(s: seq<Point>): seq<real>
  {
    seq(|s|, i requires 0 <= i < |s| => s[i].x)
  }

  function Ys(s: seq<Point>): seq<real>
  {
    seq(|s|, i requires 0 <= i < |s| => s[i].y)
  }

  /** `getAverageRadius`: the mean of the first radiiSize radii. */
  method AverageRadius(radii: seq<real>, radiiSize: int) returns (avg: Option<real>)
    requires 0 <= radiiSize <= |radii|
    ensures avg == Mean(radii[..radiiSize])
  {
    var total := 0.0;
    var i := 0;
    while i < radiiSize
      invariant 0 <= i <= radiiSize
      invariant total == Sum(radii[..i])
    {
      assert radii[..i + 1][..i] == radii[..i];
      total := total + radii[i];
      i := i + 1;
    }
    if radiiSize == 0 {
      avg := None;
    } else {
      avg := Some(total / radiiSize as real);
    }
  }

  /** `getAveragePoint`: the mean of the first `size` points. */
  method AveragePoint(center: seq<Point>, size: int) returns (avg: Option<Point>)
    requires 0 <= size <= |center|
    ensures avg == MeanPoint(center[..size])
  {
    var pointTotal := Point(0.0, 0.0);
    var i := 0;
    while i < size
      invariant 0 <= i <= size
      invariant pointTotal == Total(center[..i])
    {
      assert center[..i + 1][..i] == center[..i];
      pointTotal := Add(pointTotal, center[i]);
      i := i + 1;
    }
    if size == 0 {
      avg := None;
    } else {
      avg := Some(Point(pointTotal.x / size as real, pointTotal.y / size as real));
    }
  }

  /** Values all within [lo, hi] sum to between lo and hi times their count. */
  lemma {:induction false} SumBounds(s: seq<real>, lo: real, hi: real)
    requires forall i :: 0 <= i < |s| ==> lo <= s[i] <= hi
    ensures lo * |s| as real <= Sum(s) <= hi * |s| as real
  {
    if s != [] {
      SumBounds(s[..|s| - 1], lo, hi);
    }
  }

  /** The mean of values within [lo, hi] is within [lo, hi]; in particular
      the mean of equal values is that value. */
  lemma MeanBounds(s: seq<real>, lo: real, hi: real)
    requires s != []
    requires forall i :: 0 <= i < |s| ==> lo <= s[i] <= hi
    ensures Mean(s).Some? && lo <= Mean(s).value <= hi
  {
    SumBounds(s, lo, hi);
    var n := |s| as real;
    var m := Sum(s) / n;
    assert m * n == Sum(s);
    assert (m - lo) * n >= 0.0;
    assert (hi - m) * n >= 0.0;
  }

  /** The total of points is the sum of their x and y coordinates. */
  lemma {:induction false} TotalCoords(s: seq<Point>)
    ensures Total(s) == Point(Sum(Xs(s)), Sum(Ys(s)))
  {
    if s != [] {
      var p := s[..|s| - 1];
      TotalCoords(p);
      assert Xs(s)[..|s| - 1] == Xs(p);
      assert Ys(s)[..|s| - 1] == Ys(p);
    }
  }

  /** The mean point is the point of the mean coordinates. */
  lemma MeanPointCoords(s: seq<Point>)
    ensures MeanPoint(s).Some? <==> s != []
    ensures s != [] ==> MeanPoint(s).value == Point(Mean(Xs(s)).value, Mean(Ys(s)).value)
  {
    TotalCoords(s);
  }

  // ---------------------------------------------------------------------
  // Bounded histories
  // ---------------------------------------------------------------------

  /** The last k elements of s (all of s when it is shorter), in order. */
  function Recent<T>(s: seq<T>, k: nat): seq<T>
  {
    if |s| <= k then s else s[|s| - k..]
  }

  /** The history holds min(|s|, k) elements: the last ones of s, in order. */
  lemma RecentElements<T>(s: seq<T>, k: nat)
    ensures |Recent(s, k)| == Min(|s|, k)
    ensures forall p :: 0 <= p < |Recent(s, k)| ==> Recent(s, k)[p] == s[|s| - |Recent(s, k)| + p]
  {
  }

  /** Appending x and then dropping the front when the history already had
      k elements keeps the last k elements: this is how a deque capped at k
      follows the full sequence. */
  lemma RecentPush<T>(s: seq<T>, x: T, k: nat)
    ensures var t := Recent(s, k) + [x];
            Recent(s + [x], k) == (if |Recent(s, k)| >= k then t[1..] else t)
    ensures var t := Recent(s, k) + [x];
            Recent(s + [x], k) == (if |t| > k then t[1..] else t)
  {
    var t := Recent(s, k) + [x];
    if |Recent(s, k)| >= k {
      assert t[1..] == (s + [x])[|s| + 1 - k..];
    } else {
      assert t == s + [x];
    }
  }

  // ---------------------------------------------------------------------
  // Largest-contour selection (the contour loop of detectObject)
  // ---------------------------------------------------------------------

  /** The running maximum after the first n contours: the largest of 0 and
      the first n areas. */
  function MaxArea(areas: seq<real>, n: nat): (m: real)
    requires n <= |areas|
    ensures m >= 0.0
  {
    if n == 0 then 0.0
    else
      var m := MaxArea(areas, n - 1);
      if areas[n - 1] > m then areas[n - 1] else m
  }

  /** The indices, among the first n, of the contours whose area beats every
      earlier area and 0: those the loop appends to `largest_contours` when
      nothing is dropped. */
  function Records(areas: seq<real>, n: nat): seq<int>
    requires n <= |areas|
  {
    if n == 0 then []
    else
      var prev := Records(areas, n - 1);
      if areas[n - 1] > MaxArea(areas, n - 1) then prev + [n - 1] else prev
  }

  /** The contour loop of `detectObject`: every contour whose area beats the
      running maximum becomes the chosen one and is pushed onto
      `largest_contours`, whose front is popped once it holds more than
      maxSize. Contours are represented by their indices. */
  method SelectLargestContour(areas: seq<real>, maxSize: nat)
    returns (largest: seq<int>, contourIndex: int, largestArea: real)
    ensures largest == Recent(Records(areas, |areas|), maxSize)
    ensures largestArea == MaxArea(areas, |areas|)
    ensures var r := Records(areas, |areas|); contourIndex == (if r == [] then 0 else r[|r| - 1])
  {
    largestArea := 0.0;
    contourIndex := 0;
    largest := [];
    ghost var records: seq<int> := [];
    if |areas| > 0 {
      var i := 0;
      while i < |areas|
        invariant 0 <= i <= |areas|
        invariant records == Records(areas, i)
        invariant largest == Recent(records, maxSize)
        invariant largestArea == MaxArea(areas, i)
        invariant contourIndex == (if records == [] then 0 else records[|records| - 1])
      {
        var area := areas[i];
        if area > largestArea {
          largestArea := area;
          contourIndex := i;
          RecentPush(records, i, maxSize);
          records := records + [i];
          largest := largest + [i];
          if |largest| > maxSize {
            largest := largest[1..];
          }
        }
        i := i + 1;
      }
    }
  }

  /** The running maximum is an upper bound of the areas it has seen. */
  lemma {:induction false} MaxAreaBound(areas: seq<real>, n: nat)
    requires n <= |areas|
    ensures forall i :: 0 <= i < n ==> areas[i] <= MaxArea(areas, n)
  {
    if n > 0 {
      MaxAreaBound(areas, n - 1);
    }
  }

  /** r lists contours in increasing order with strictly increasing areas:
      each one and the next are in range, in order, and the next is larger. */
  predicate Ascending(areas: seq<real>, r: seq<int>)
  {
    |r| <= 1 ||
    (0 <= r[0] < r[1] < |areas| && areas[r[0]] < areas[r[1]] && Ascending(areas, r[1..]))
  }

  /** A contour beyond the last one, with a larger area, extends an
      ascending list. */
  lemma {:induction false} AppendAscending(areas: seq<real>, r: seq<int>, x: int)
    requires Ascending(areas, r) && 0 <= x < |areas|
    requires r != [] ==> 0 <= r[|r| - 1] < x && areas[r[|r| - 1]] < areas[x]
    ensures Ascending(areas, r + [x])
  {
    if |r| >= 1 {
      AppendAscending(areas, r[1..], x);
      assert (r + [x])[1..] == r[1..] + [x];
    }
  }

  /** Every record is an index among the first n, none with an area above
      the running maximum, and the records ascend. */
  lemma {:induction false} RecordsIncreasing(areas: seq<real>, n: nat)
    requires n <= |areas|
    ensures forall p :: 0 <= p < |Records(areas, n)| ==>
      0 <= Records(areas, n)[p] < n && areas[Records(areas, n)[p]] <= MaxArea(areas, n)
    ensures Ascending(areas, Records(areas, n))
  {
    if n > 0 {
      RecordsIncreasing(areas, n - 1);
      var prev := Records(areas, n - 1);
      if areas[n - 1] > MaxArea(areas, n - 1) {
        assert Records(areas, n) == prev + [n - 1];
        if prev != [] {
          assert 0 <= prev[|prev| - 1] < n - 1;
          assert areas[prev[|prev| - 1]] <= MaxArea(areas, n - 1);
        }
        AppendAscending(areas, prev, n - 1);
      } else {
        assert Records(areas, n) == prev;
      }
    }
  }

  /** Dropping contours from the front keeps the rest ascending. */
  lemma {:induction false} SuffixAscending(areas: seq<real>, r: seq<int>, j: nat)
    requires j <= |r| && Ascending(areas, r)
    ensures Ascending(areas, r[j..])
  {
    if j > 0 {
      SuffixAscending(areas, r[1..], j - 1);
      assert r[1..][j - 1..] == r[j..];
    }
  }

  /** There is a record exactly when some area is positive; then the last
      record is the first contour with the maximum area, and that maximum
      is the final `largest_area`. */
  lemma {:induction false} RecordsLast(areas: seq<real>, n: nat)
    requires n <= |areas|
    ensures Records(areas, n) == [] <==> forall i :: 0 <= i < n ==> areas[i] <= 0.0
    ensures Records(areas, n) == [] ==> MaxArea(areas, n) == 0.0
    ensures Records(areas, n) != [] ==>
      var last := Records(areas, n)[|Records(areas, n)| - 1];
      0 <= last < n && areas[last] == MaxArea(areas, n) > 0.0 &&
      forall i :: 0 <= i < last ==> areas[i] < areas[last]
  {
    if n > 0 {
      RecordsLast(areas, n - 1);
      MaxAreaBound(areas, n - 1);
    }
  }

  /** The deque `largest_contours` never holds more than maxSize contours,
      and their areas strictly increase from front to back. */
  lemma ContourHistory(areas: seq<real>, maxSize: nat)
    ensures |Recent(Records(areas, |areas|), maxSize)| <= maxSize
    ensures Ascending(areas, Recent(Records(areas, |areas|), maxSize))
  {
    var r := Records(areas, |areas|);
    RecordsIncreasing(areas, |areas|);
    if |r| > maxSize {
      SuffixAscending(areas, r, |r| - maxSize);
    }
  }

  /** The choice the contour loop makes: if some area is positive,
      `contour_index` is the first contour of maximum area, which is
      `largest_area`, and (for maxSize > 0) it is the back of
      `largest_contours`; if no area is positive, the deque is empty and
      the area stays 0. */
  lemma ContourChoice(areas: seq<real>, maxSize: nat)
    ensures (forall i :: 0 <= i < |areas| ==> areas[i] <= 0.0) ==>
      Recent(Records(areas, |areas|), maxSize) == [] && MaxArea(areas, |areas|) == 0.0
    ensures (exists i :: 0 <= i < |areas| && areas[i] > 0.0) ==>
      var r := Records(areas, |areas|);
      r != [] && 0 <= r[|r| - 1] < |areas| && areas[r[|r| - 1]] == MaxArea(areas, |areas|) &&
      (forall i :: 0 <= i < r[|r| - 1] ==> areas[i] < areas[r[|r| - 1]]) &&
      (forall i :: 0 <= i < |areas| ==> areas[i] <= areas[r[|r| - 1]]) &&
      (maxSize > 0 ==> Recent(r, maxSize)[|Recent(r, maxSize)| - 1] == r[|r| - 1])
  {
    var r := Records(areas, |areas|);
    RecordsLast(areas, |areas|);
    if r != [] {
      var last := r[|r| - 1];
      MaxAreaBound(areas, |areas|);
      assert forall i :: 0 <= i < |areas| ==> areas[i] <= areas[last];
      if maxSize > 0 {
        RecentBack(r, maxSize);
      }
    } else {
      assert Recent(r, maxSize) == [];
    }
  }

  /** A non-empty history capped at k > 0 ends with the last element. */
  lemma RecentBack<T>(s: seq<T>, k: nat)
    requires s != [] && k > 0
    ensures Recent(s, k) != [] && Recent(s, k)[|Recent(s, k)| - 1] == s[|s| - 1]
  {
    RecentElements(s, k);
  }

  // ---------------------------------------------------------------------
  // The HSV calibration file (calibrate and userInput)
  // ---------------------------------------------------------------------

  /** A `Scalar` of three HSV channels. */
  datatype Scalar = Scalar(h: int, s: int, v: int)

  /** The six trackbar positions of `calibrate`. */
  datatype Trackbars = Trackbars(lowH: int, highH: int, lowS: int, highS: int, lowV: int, highV: int)

  /** The trackbars' starting positions. */
  const InitialTrackbars := Trackbars(0, 179, 0, 255, 0, 255)

  /** The lower and upper bounds `calibrate` sets from the trackbars. */
  function CalibratedBounds(t: Trackbars): (Scalar, Scalar)
  {
    (Scalar(t.lowH, t.lowS, t.lowV), Scalar(t.highH, t.highS, t.highV))
  }

  /** Before the user moves a trackbar, `calibrate` admits every 8-bit HSV
      colour: hue 0..179, saturation and value 0..255. */
  lemma InitialBoundsAdmitAll(c: Scalar)
    requires 0 <= c.h <= 179 && 0 <= c.s <= 255 && 0 <= c.v <= 255
    ensures var (lower, upper) := CalibratedBounds(InitialTrackbars);
      lower.h <= c.h <= upper.h && lower.s <= c.s <= upper.s && lower.v <= c.v <= upper.v
  {
  }

  /** The lines `calibrate` writes, one int per line, in the order LowH,
      HighH, LowS, HighS, LowV, HighV (the line ends are what `getline`
      removes when reading them back). */
  function SavedLines(t: Trackbars): seq<string>
  {
    [Text(t.lowH), Text(t.highH), Text(t.lowS), Text(t.highS), Text(t.lowV), Text(t.highV)]
  }

  /** The bounds `userInput` takes from a file of six lines: values 0, 2, 4
      form the lower bound and 1, 3, 5 the upper one; with fewer lines the
      bounds passed in are kept. */
  function ReadBounds(lines: seq<string>, lower: Scalar, upper: Scalar): (b: (Scalar, Scalar))
    requires |lines| <= 6
    ensures |lines| <= 5 ==> b == (lower, upper)
    ensures |lines| == 6 ==>
      b == CalibratedBounds(Trackbars(Atoi(lines[0]), Atoi(lines[1]), Atoi(lines[2]),
                                      Atoi(lines[3]), Atoi(lines[4]), Atoi(lines[5])))
  {
    if |lines| > 5 then
      (Scalar(Atoi(lines[0]), Atoi(lines[2]), Atoi(lines[4])),
       Scalar(Atoi(lines[1]), Atoi(lines[3]), Atoi(lines[5])))
    else (lower, upper)
  }

  /** The reading branch of `userInput`: each line is parsed with `atoi` into
      `hsvArr`, and the bounds are set only if more than five lines were
      read. */
  method LoadBounds(lines: seq<string>, lower: Scalar, upper: Scalar)
    returns (newLower: Scalar, newUpper: Scalar)
    requires |lines| <= 6
    ensures (newLower, newUpper) == ReadBounds(lines, lower, upper)
  {
    var hsvArr := new int[6];
    var i := 0;
    while i < |lines|
      invariant 0 <= i <= |lines|
      invariant forall k :: 0 <= k < i ==> hsvArr[k] == Atoi(lines[k])
    {
      hsvArr[i] := Atoi(lines[i]);
      i := i + 1;
    }
    newLower, newUpper := lower, upper;
    if i > 5 {
      newLower := Scalar(hsvArr[0], hsvArr[2], hsvArr[4]);
      newUpper := Scalar(hsvArr[1], hsvArr[3], hsvArr[5]);
    }
  }

  /** Round trip: reading back the file `calibrate` wrote gives exactly the
      bounds `calibrate` set, whatever bounds were in place before. */
  lemma CalibrationRoundTrip(t: Trackbars, lower: Scalar, upper: Scalar)
    ensures ReadBounds(SavedLines(t), lower, upper) == CalibratedBounds(t)
  {
    AtoiText(t.lowH);
    AtoiText(t.highH);
    AtoiText(t.lowS);
    AtoiText(t.highS);
    AtoiText(t.lowV);
    AtoiText(t.highV);
  }
}
