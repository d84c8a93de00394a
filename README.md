# Maxwell tracker, servo and client core in Dafny

This project models three self-contained parts of the Maxwell robot software and proves
properties of them.

- **Motion tracking** (`Pascal/Vision/motionTrack.cpp`):
  - the direction label `detectDirection` picks from the object's last eleven tracked points;
  - the drive segment that `getObservedDriveDist` opens, extends and closes through its pointer
    arguments, and the distance it reports when a drive ends;
  - the averages `getAverageMotionAngle`, `getAverageRadius` and `getAveragePoint`;
  - the four capped deques that `analyzeVideo` pushes to and pops from on every frame;
  - the largest-contour loop of `detectObject`;
  - the HSV calibration file that `calibrate` writes and `userInput` reads back.
- **Servo commands** (`Maxwell/Servo/motorControl.cpp`):
  - `normalizeAngle`;
  - the wheel speeds and run times that `turn` and `drive` choose;
  - the control transfers that `startMotors`, `motorOneDirection` and `motorTurn` send, which
    stop at the first failure.
- **Message client** (`Communication/client.c`):
  - `itoa`;
  - the packet layout `0/*size*//*id*//*data*/1` of `packMessage`;
  - the send loop of `main`, which rotates the sensor id through 0, 5 and 10.

## Files

| File | Contents |
|---|---|
| `common.dfy` | `Optional` holds the `Option` type. `CArith` holds C's truncating `/` and `%`, and float-to-int truncation. |
| `c_text.dfy` | `CText`: decimal digits, C's `atoi`, and the text an output stream writes for an int. |
| `client.dfy` | `Client`: `itoa`, `packMessage`, a reference packet decoder, and the send loop of `main`. |
| `motor_control.dfy` | `MotorControl`: angle normalisation, wheel plans, and transfer sequences over a reply oracle. |
| `motion_track.dfy` | `MotionTrack`: the direction label, the averages, bounded histories, contour selection, and the HSV file. |
| `video_analysis.dfy` | `VideoAnalysis`: the segment transitions and the `Tracker` class, which holds the per-frame state of `analyzeVideo`. |

## Modelling choices

- **Floats.** `float` and `double` values are exact reals.
  - A float division by zero yields NaN or an infinity in the source. The model returns `None`
    there: in the averages over an empty prefix, and in the drive distance for a zero radius.
  - A NaN motion angle is `None`, which is how `angle != angle` detects it.
  - Casting a float to an int discards the fractional part (`CArith.Trunc`).
- **Integers.** `int` values are unbounded. C's `/` and `%` truncate toward zero (`CArith.CDiv` and
  `CArith.CRem`), unlike Dafny's Euclidean operators.
- **Text.** `itoa` and `packMessage` return their text rather than writing it into a caller's
  buffer. Lemmas bound its length: at most 10 characters per number and 255 per packet, so it
  fits the buffers of 15 and 256 bytes.
- **Transfers.** A USB control transfer is not performed. `replies(k)` is the value the k-th
  transfer of an operation returns, and each operation returns the list of events it issued.
- **The `analyzeVideo` class.** The locals of `analyzeVideo` that live from frame to frame form
  the class `VideoAnalysis.Tracker`:
  - the four deques are `seq` fields;
  - `startCenter`, `lenPath` and `totAngle` are fields that `ObservedDriveDist` updates in place;
  - `MAXQUEUESIZE`, the two direction biases, `angleBias` and `ACTUAL_DIAMETER_IN_CM` are
    constructor parameters, because the header that defines them is not part of this model.
- **Inputs.** Camera frames and OpenCV detection are outside the model. Their results come in as
  parameters: centres, radii, contour areas, the motion angle, and the image norm `cv::norm` as a
  function.

Where the code and its documented intent differ, the model follows the code.

- **The comparison point of `detectDirection`.** `analyzeVideo` passes the deque size *before* the
  push (`motionTrack.cpp:454`, `475`). So `points[pt_size]` is the newest sample and is in range.
  It is not an off-by-one, and the model compares the newest point with the point ten places
  earlier.
- **The angle guard.** On line 286, `fabs` is applied to the boolean `avgAngle - angle <=
  angleBias`. The guard is therefore the signed test, and `VideoAnalysis.Accepts` models it so.
- **The averages.** The averages of a frame are taken over the deques' first `size` entries, with
  the pre-push size. They therefore exclude the sample just pushed. A deque is popped when its
  pre-push size had reached `MAXQUEUESIZE`.
- **`normalizeAngle`.** It adds or subtracts 180, not 360. The result lies in [-179, 180] and is
  congruent to the input modulo 180 only. For example, 270 becomes 90.
- **The direction label.** When neither axis passes its bias, `detectDirection` keeps the label it
  was given. `analyzeVideo` has just reset that label to "Stationary" (line 414).

## Model

| member | source | states |
|---|---|---|
| CArith.CDiv | Communication/client.c:33 | C's integer `/` truncates toward zero: the magnitude of the quotient is the quotient of the magnitudes, and the quotient is >= 0 when the operands have the same sign and <= 0 otherwise. For a non-negative dividend and a positive divisor it is Euclidean division |
| CArith.CRem | Communication/client.c:62 | C's `%`: `a == CDiv(a,b)*b + r`, with \|r\| < \|b\| and r taking the sign of a |
| CArith.Trunc | Pascal/Vision/motionTrack.cpp:222-223 | float-to-int conversion truncates toward zero: t <= r < t+1 for r >= 0, and t-1 < r <= t for r < 0 |
| CText.NumDigitsBound | Communication/client.c:31-41 | the digit-counting loop counts at most k digits exactly when the magnitude is below 10^k, so `numDigits > 9` means \|num\| >= 10^9 |
| CText.SkipSpaces | Communication/client.c:158 | `atoi` skips leading white space: what remains is no longer than the text and does not start with white space |
| CText.SkipSpacesSuffix | Communication/client.c:158 | what is skipped is a prefix made only of white space, and what remains is the rest of the text |
| CText.Atoi | Communication/client.c:158 | `atoi` gives 0 when, after the white space, the text is empty or does not start with a digit or a sign |
| CText.AtoiDigits | Communication/client.c:158 | `atoi` reads a non-empty digit string, with or without a leading '-', as the number it denotes |
| CText.AtoiText | Pascal/Vision/motionTrack.cpp:82-87 | `atoi` reads back exactly the int whose text was written with `<<`, for every int |
| Client.CountDigits | Communication/client.c:22-37 | the first loop of `itoa` (truncating `/ 10`) counts the decimal digits of \|num\|, and `base` ends as 10^(numDigits-1) |
| Client.WriteStep | Communication/client.c:59-64 | in each pass of the digit loop, `copy/base` is the next digit (0..9, whose character is the digit expected), and `copy % base` is the value of the remaining digits |
| Client.WriteDigits | Communication/client.c:57-66 | the second loop of `itoa` appends exactly the digit string whose value is `copy`, most significant digit first |
| Client.Itoa | Communication/client.c:21-67 | `itoa` yields "0" for zero and for numbers of more than nine digits, and otherwise "-" for negative numbers followed by the digits of \|num\| |
| Client.Decimal | Communication/client.c:21-67 | the text `itoa` writes has 1 to 10 characters, and starts with '-' exactly when the number is negative and has at most nine digits |
| Client.DecimalShape | Communication/client.c:41-66 | "0" for zero and for ten or more digits. Otherwise: a '-' iff num < 0, then numDigits digits with no leading zero, so the length is numDigits + (num < 0 ? 1 : 0). Every character is a digit except a single leading '-'. The length is between 1 and 10 |
| Client.DecimalHasNoStar | Communication/client.c:53-61 | the text of `itoa` never contains '*', so it cannot end a packet field early |
| Client.DecimalLength | Communication/client.c:73-74 | the text of `itoa` has between 1 and 10 characters and fits the 15-byte buffers `id_s` and `data_s` |
| Client.AtoiDecimal | Communication/client.c:19-67 | round trip: `atoi(itoa(n)) == n` whenever \|n\| < 10^9, and 0 otherwise |
| Client.PackMessage | Communication/client.c:69-97 | the packet built by successive `strcat` is "0" ++ "/*" S "*/" ++ "/*" I "*/" ++ "/*" D "*/" ++ "1", with I = itoa(id), D = itoa(data) and S = itoa(\|I\| + \|D\|) |
| Client.Frame | Communication/client.c:69-97 | a packet has at least 17 characters (three fields of at least one character each), and it fits, with its NUL, in the 256-byte buffer `temp` of `main` |
| Client.FrameShape | Communication/client.c:77-95 | the packet starts with '0', ends with '1', has length 14 + \|S\| + \|I\| + \|D\|, and fits with its NUL in the 256-byte buffer `temp` |
| Client.UnpackFields | Communication/client.c:84-95 | an independent decoder reads the three fields of any packet layout whose fields contain no '*', each field parsed with `atoi` |
| Client.UnpackFrame | Communication/client.c:75-95 | decoding a packet gives size \|I\| + \|D\|, and the id and data read back with `atoi`; for \|id\|, \|data\| < 10^9 these are exactly id and data |
| Client.ResetTestId | Communication/client.c:150-152 | after the reset the id is at most 10, and an id of at most 10 is kept |
| Client.SensorIdCycle | Communication/client.c:146-179 | the k-th packet is sent under id 5 * (k mod 3), so the ids cycle 0, 5, 10, 0, ... and always lie in {0, 5, 10} |
| Client.SendLine | Communication/client.c:158-167 | one pass of the loop writes the line read with `atoi`, framed under the current id, followed by its NUL |
| Client.SendPass | Communication/client.c:150-179 | one pass of the loop writes the line framed under the current id after its reset, keeps every earlier packet, and leaves the id for the next pass |
| Client.SendLoop | Communication/client.c:146-180 | over the input lines, the k-th packet written is the k-th line framed under the k-th sensor id, and one packet is written per line |
| MotorControl.NormalizeAngle | Maxwell/Servo/motorControl.cpp:172-183 | the result always lies in [-179, 180], inside the documented [-180, 180] |
| MotorControl.NormalizeAngleIdentity | Maxwell/Servo/motorControl.cpp:176-183 | angles in [-179, 180] are left unchanged |
| MotorControl.NormalizeAngleIdempotent | Maxwell/Servo/motorControl.cpp:176-183 | normalising twice gives the same result as normalising once |
| MotorControl.NormalizeAngleMod180 | Maxwell/Servo/motorControl.cpp:177-181 | the result is congruent to the input modulo 180 |
| MotorControl.NormalizeAngleNotMod360 | Maxwell/Servo/motorControl.cpp:177-181 | the result is not congruent modulo 360: 270 gives 90, -270 gives -90 and -180 gives 0 |
| MotorControl.TurnPlan | Maxwell/Servo/motorControl.cpp:204-216 | both wheels get the same speed, and the timer is never negative |
| MotorControl.TurnSpeeds | Maxwell/Servo/motorControl.cpp:204-216 | both wheels get the same speed: 1715 iff the normalised angle is positive, and 1265 iff it is not |
| MotorControl.TurnTimer | Maxwell/Servo/motorControl.cpp:211-215 | the turn timer lies between 0 and 1045 ms, and is 0 exactly when the normalised angle is 0 |
| MotorControl.DrivePlan | Maxwell/Servo/motorControl.cpp:241-256 | the timer is never negative, and it is 0 for a distance of 0 |
| MotorControl.DriveSpeeds | Maxwell/Servo/motorControl.cpp:241-254 | for percent >= 0: forward drives give lSpeed <= 1465 <= rSpeed, and other drives give rSpeed <= 1515 <= lSpeed |
| MotorControl.DriveTimerMonotone | Maxwell/Servo/motorControl.cpp:256 | the drive timer is non-negative and does not decrease as \|distance\| grows |
| MotorControl.StartMotors | Maxwell/Servo/motorControl.cpp:18-36 | transfers go to servos 0, 2, 4 and 6 in order, each with value 4*speed, and stop after the first failure. The result is -1 exactly when a transfer failed, and otherwise the last transfer's reply |
| MotorControl.MotorOneDirection | Maxwell/Servo/motorControl.cpp:71-136 | servo 0 := 4*rSpeed, then servo 4 := 4*lSpeed only if the first succeeded. The result is -1 on a failure, and otherwise the second reply |
| MotorControl.MotorTurn | Maxwell/Servo/motorControl.cpp:139-169 | the same two-transfer sequence and early exit as `motorOneDirection` |
| MotorControl.Turn | Maxwell/Servo/motorControl.cpp:199-229 | sends the turn plan's wheel transfers (only the first if it failed), pauses for its timer, then stops servos 0, 2, 4 and 6 in order. The stop goes on to all four servos unless one fails, and it ends early only at a failed transfer. Returns 0 whatever the transfers returned |
| MotorControl.Drive | Maxwell/Servo/motorControl.cpp:239-265 | sends the drive plan's wheel transfers (only the first if it failed), pauses for its timer, then stops servos 0, 2, 4 and 6 in order, ending early only at a failed transfer. Returns 0 whatever the transfers returned |
| MotionTrack.DetectDirection | Pascal/Vision/motionTrack.cpp:213-249 | with at most ten points, the label passed in is kept |
| MotionTrack.Label | Pascal/Vision/motionTrack.cpp:225-245 | when neither axis passes its bias, the label passed in is kept; otherwise the label is one of the eight headings, never "Stationary" |
| MotionTrack.LabelAxes | Pascal/Vision/motionTrack.cpp:225-245 | when neither axis passes its bias, the label is kept. Otherwise the label is one of the eight headings, with West iff \|dX\| > x_bias and dX > 0, East iff \|dX\| > x_bias and dX <= 0, and likewise North and South for dY (both directions of each iff) |
| MotionTrack.DirectionLabel | Pascal/Vision/motionTrack.cpp:220-245 | the same, with dX and dY the truncated differences between the point ten places before the newest and the newest point |
| MotionTrack.AverageMotionAngle | Pascal/Vision/motionTrack.cpp:308-314 | exactly 0 when lenPath == 0; otherwise avg * lenPath == totAngle |
| MotionTrack.AverageRadius | Pascal/Vision/motionTrack.cpp:316-322 | the loop computes the mean of radii[0, radiiSize), or None (NaN) for size 0 |
| MotionTrack.AveragePoint | Pascal/Vision/motionTrack.cpp:324-331 | the loop computes the mean point of center[0, size), or None for size 0 |
| MotionTrack.MeanBounds | Pascal/Vision/motionTrack.cpp:316-322 | the mean of values within [lo, hi] lies within [lo, hi] |
| MotionTrack.MeanPointCoords | Pascal/Vision/motionTrack.cpp:324-331 | the mean point exists iff there are points, and it is the point of the mean coordinates |
| MotionTrack.RecentElements | Pascal/Vision/motionTrack.cpp:558-575 | a history capped at k holds min(\|s\|, k) samples: the most recent ones, in order |
| MotionTrack.RecentPush | Pascal/Vision/motionTrack.cpp:143-147 | pushing and then popping the front when the deque had reached k (that is, when it now exceeds k) gives the capped history of the extended sequence |
| MotionTrack.SelectLargestContour | Pascal/Vision/motionTrack.cpp:136-149 | the contour loop returns the running maximum area, the capped deque of the record-breaking contours, and as `contour_index` the last record (0 if there is none) |
| MotionTrack.MaxAreaBound | Pascal/Vision/motionTrack.cpp:138-142 | `largest_area` is at least every area seen |
| MotionTrack.RecordsIncreasing | Pascal/Vision/motionTrack.cpp:138-148 | the contours pushed are in range, in increasing index order, with strictly increasing areas, none above the maximum |
| MotionTrack.SuffixAscending | Pascal/Vision/motionTrack.cpp:145-146 | popping from the front keeps the areas strictly increasing |
| MotionTrack.RecordsLast | Pascal/Vision/motionTrack.cpp:138-142 | some contour is pushed iff some area is positive. The last one pushed is the first contour attaining the maximum, which is positive. With none pushed, the maximum stays 0 |
| MotionTrack.ContourHistory | Pascal/Vision/motionTrack.cpp:143-147 | `largest_contours` never holds more than MAXSIZE contours, and their areas strictly increase |
| MotionTrack.ContourChoice | Pascal/Vision/motionTrack.cpp:136-149 | with no positive area, the deque is empty and the area is 0. Otherwise `contour_index` is the first contour of maximum area, its area is `largest_area`, and (for MAXSIZE > 0) it is the deque's back |
| MotionTrack.LoadBounds | Pascal/Vision/motionTrack.cpp:346-357 | each line is parsed with `atoi` into `hsvArr`. With six lines, lower = (v0, v2, v4) and upper = (v1, v3, v5); with fewer, the bounds are unchanged |
| MotionTrack.ReadBounds | Pascal/Vision/motionTrack.cpp:350-356 | with at most five lines the bounds are unchanged. With six lines, read as LowH, HighH, LowS, HighS, LowV, HighV, they are the bounds `calibrate` sets from those trackbar positions |
| MotionTrack.InitialBoundsAdmitAll | Pascal/Vision/motionTrack.cpp:28-35 | the starting trackbar positions of `calibrate` give bounds that admit every 8-bit HSV colour (hue 0..179, saturation and value 0..255) |
| MotionTrack.CalibrationRoundTrip | Pascal/Vision/motionTrack.cpp:75-87 | reading back the six lines `calibrate` writes (LowH, HighH, LowS, HighS, LowV, HighV) gives exactly the bounds it set at lines 75-76 |
| VideoAnalysis.ScaledNonNegative | Pascal/Vision/motionTrack.cpp:279-282 | with a positive radius, a non-negative distance and a non-negative diameter, the distance in cm is a non-negative number |
| VideoAnalysis.Accepts | Pascal/Vision/motionTrack.cpp:286 | an angle is accumulated only when it is a number and a drive is in progress. Because the test is signed, every angle at or above the average passes, however far above it lies |
| VideoAnalysis.DriveDistStep | Pascal/Vision/motionTrack.cpp:264-291 | a value other than 0 can come only from the end transition, which resets the start to the origin. The start transition sets the start to the object, and otherwise the start is kept |
| VideoAnalysis.StartTransition | Pascal/Vision/motionTrack.cpp:266-276 | the drive starts at the object with (lenPath, totAngle) = (0, 0) for a NaN angle and (1, angle) otherwise, and the call returns 0 |
| VideoAnalysis.EndTransition | Pascal/Vision/motionTrack.cpp:278-284 | the start goes back to the origin and lenPath and totAngle are kept. The call returns norm(start - object) * diameter / (2 * radius), or None for a zero radius |
| VideoAnalysis.OtherTransition | Pascal/Vision/motionTrack.cpp:286-290 | otherwise the call returns 0, and it accumulates the angle exactly when a drive is in progress and the signed test avgAngle - angle <= angleBias passes; in every other case nothing changes |
| VideoAnalysis.InvariantKept | Pascal/Vision/motionTrack.cpp:264-291 | lenPath >= 0 and (lenPath == 0 ==> totAngle == 0) holds initially and after every call |
| VideoAnalysis.DistanceOnlyAtEnd | Pascal/Vision/motionTrack.cpp:264-291 | a value other than 0 is returned only on the end transition, which closes the drive. With a positive radius and a non-negative norm and diameter, the value is a non-negative number |
| VideoAnalysis.Tracker.constructor | Pascal/Vision/motionTrack.cpp:401-409 | the state before the first frame: empty deques, "Stationary", no drive, and zero angle sums |
| VideoAnalysis.Tracker.ObservedDriveDist | Pascal/Vision/motionTrack.cpp:264-291 | updating the three fields in place has exactly the effect and result of the transition function |
| VideoAnalysis.Tracker.PushSamples | Pascal/Vision/motionTrack.cpp:460-466 | each deque gets this frame's sample at its back |
| VideoAnalysis.Tracker.PopSamples | Pascal/Vision/motionTrack.cpp:558-575 | each deque loses its front exactly when its pre-push size had reached MAXQUEUESIZE |
| VideoAnalysis.Tracker.Analyze | Pascal/Vision/motionTrack.cpp:474-507 | the direction comes from the pushed object deque at the pre-push size, the segment advances with the previous average angle, the averages cover the pre-push entries, and the average angle is recomputed |
| VideoAnalysis.Tracker.ProcessFrame | Pascal/Vision/motionTrack.cpp:414-575 | one frame keeps every deque within MAXQUEUESIZE and equal to the capped history of the old deque plus the new sample. It also gives the direction, segment, distance, averages and average angle as `Analyze` states them, in terms of the state before the frame |
| VideoAnalysis.PushPop | Pascal/Vision/motionTrack.cpp:558-575 | for a deque within its cap, push-then-conditional-pop is the capped history, and the pre-push entries are unchanged |
| VideoAnalysis.RecentOfRecent | Pascal/Vision/motionTrack.cpp:558-575 | capping before a push does not change the capped history after it |
| VideoAnalysis.DequeIsRecent | Pascal/Vision/motionTrack.cpp:454-575 | frame by frame, each deque is the last MAXQUEUESIZE samples of the whole stream |
| VideoAnalysis.HistoryContents | Pascal/Vision/motionTrack.cpp:454-575 | after n frames, each deque holds min(n, MAXQUEUESIZE) samples: the most recent ones, in insertion order |

## Left out

- OpenCV is left out: `filterImage`, `findContours`, `contourArea`, `minEnclosingCircle`, `HoughCircles`, drawing, windows, trackbars and camera capture. Areas, centres, radii and the image norm are inputs.
- The rest of `detectObject` after the contour loop is left out, because it consists of OpenCV calls and the circle-matching geometry.
- `getMotionAngle` and `updatePerspectiveAngle` are left out, because they are trigonometric float numerics. The motion angle is an optional real input. `getMotionAngle` also has no return on its short path (line 260), which is undefined behaviour.
- The drive distance in `analyzeVideo` (lines 499-504) is left out, because it is a constant 829.5 divided by the diameter. It feeds the statechart, and `updatePerspectiveAngle` as `actualDist` (line 509), which is left out as float numerics.
- `MaxwellStatechart` and `bBuffer.deposit` are left out, because they are foreign code behind a cross-thread handoff.
- The calibration UI loop of `calibrate` and the prompt of `userInput` are left out, because they are terminal and window I/O. Only the file contents and the bounds are modelled.
- MotionTrack.LoadBounds: requires at most six lines, because `hsvArr` has six entries and a longer file overruns it (line 351).
- libusb setup and teardown are left out, because they are hardware I/O. The return values of the control transfers come from an oracle.
- `pause_thread` with its thread is left out. The model records the pause as an event.
- `main` of `motorControl.cpp` (lines 267-334) is left out. It parses the command-line arguments, reading `argv[2]` even when fewer arguments were given. It opens and claims the USB device and then dispatches to `startMotors`, `turn` or `drive` (lines 293-333). The argument parsing and the libusb calls are outside the model; the three operations it dispatches to are modelled.
- In `client.c`, the sockets, `gethostbyname`, `connect`, `read` and `write` are left out, and so are the exits on their errors. `fgets` from stdin becomes a sequence of input lines, one per pass; `fgets` splitting lines longer than 254 characters is not modelled.
- Client.Itoa: does not model the 32-bit overflow of `base` (line 32) for ten-digit numbers. That branch returns "0" before `base` is used.
- Client.Itoa: returns the text instead of writing it into a caller's buffer. `DecimalLength` and `FrameShape` show that it fits those buffers.
- Client.PackMessage: assumes the caller's buffers start empty. In the source, `itoa` and `packMessage` call `strlen` and then `memset` on buffers that were never initialised (client.c:39 and 83): `id_s` and `data_s` (lines 73-74), `bodySize_s` (line 78) and `temp` (line 160). This is undefined behaviour. `strlen` can run past the end of one buffer and `memset` then zeroes its neighbours, which is the likely cause of the erased data that the comment at lines 70-72 reports.
- Console output is left out: `printf` and `cout` messages carry no state the model needs. Examples are client.c lines 42, 92, 96, 154 and 178; motorControl.cpp lines 31, 100, 188, 202 and 219; motionTrack.cpp lines 267, 281-283 and 517-534.
- CText.Atoi: does not model C's undefined result when the number parsed exceeds the range of `int`.
- MotorControl.TurnPlan and MotorControl.DrivePlan: compute in exact reals. The model states sign, bound and monotonicity facts, not the exact float rounding of the `float`-to-`int` conversions.
- VideoAnalysis.Scaled: a division by a zero radius is None rather than the float infinity or NaN of the source.
- MotionTrack.AverageRadius and MotionTrack.AveragePoint: a mean over zero entries is None rather than NaN.
- Threads and concurrency are left out. The tracker is single-threaded and the buffer handoff is not modelled.
