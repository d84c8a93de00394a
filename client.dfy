/** The sensor client's message serialiser: `itoa` (decimal text of an int of
    at most nine digits), `packMessage` (the framed packet
    `0/*size*//*id*//*data*/1`), and the loop of `main` that reads one
    number per line, frames it under a rotating sensor id and sends it. */
module Client {
  import opened Optional
  import opened CArith
  import opened CText

  // ---------------------------------------------------------------------
  // The text of itoa
  // ---------------------------------------------------------------------

  /** The text `itoa` leaves in its buffer: "0" for zero and for numbers of
      more than nine digits, otherwise an optional "-" and the digits. */
  function Decimal(num: int): (s: string)
    ensures 1 <= |s| <= 10
    ensures s[0] == '-' <==> num < 0 && NumDigits(Abs(num)) <= 9
  {
    DigitsWellFormed(Abs(num));
    if NumDigits(Abs(num)) > 9 || num == 0 then "0"
    else (if num < 0 then "-" else "") + Digits(Abs(num))
  }

  // ---------------------------------------------------------------------
  // Arithmetic facts used by the digit loops
  // ---------------------------------------------------------------------

  lemma DivModUnique(a: int, b: int, q: int, r: int)
    requires b > 0 && 0 <= r < b && a == q * b + r
    ensures a / b == q && a % b == r
  {
    var q', r' := a / b, a % b;
    assert (q - q') * b == r' - r;
    if q > q' {
      MulAtLeast(q - q', b);
    } else if q < q' {
      MulAtLeast(q' - q, b);
    }
  }

  lemma MulAtLeast(x: int, b: int)
    requires x >= 1 && b > 0
    ensures x * b >= b
  {
  }

  lemma DivDiv(a: nat, b: nat, c: nat)
    requires b > 0 && c > 0
    ensures a / b / c == a / (b * c)
  {
    var q, r := a / (b * c), a % (b * c);
    var s := r / b;
    assert r == s * b + r % b;
    assert a == (q * c + s) * b + r % b;
    DivModUnique(a, b, q * c + s, r % b);
    if s >= c {
      MulMono(c, s, b);
    }
    assert s < c;
    DivModUnique(a / b, c, q, s);
  }

  lemma MulMono(x: int, y: int, b: int)
    requires x <= y && b >= 0
    ensures x * b <= y * b
  {
  }

  // ---------------------------------------------------------------------
  // itoa
  // ---------------------------------------------------------------------

  /** Dividing a power of ten by ten, as `base /= 10` does. */
  lemma PowStep(k: nat)
    requires k >= 1
    ensures CDiv(Pow10(k), 10) == Pow10(k - 1)
  {
  }

  /** d shifted k decimal places left, by repeated multiplication by ten. */
  function Place(d: int, k: nat): int
  {
    if k == 0 then d else 10 * Place(d, k - 1)
  }

  lemma {:induction false} PlaceIsProduct(d: int, k: nat)
    ensures Place(d, k) == d * Pow10(k)
  {
    if k > 0 {
      PlaceIsProduct(d, k - 1);
      assert d * (10 * Pow10(k - 1)) == 10 * (d * Pow10(k - 1));
    }
  }

  /** A digit string's value is its leading digit in its place plus the value
      of the rest. */
  lemma {:induction false} ValueLeading(s: string)
    requires |s| >= 1
    ensures Value(s) == Place(DigitValue(s[0]), |s| - 1) + Value(s[1..])
  {
    if |s| > 1 {
      var t, u := s[..|s| - 1], s[1..];
      assert u[..|u| - 1] == t[1..];
      assert u[|u| - 1] == s[|s| - 1] && t[0] == s[0];
      ValueLeading(t);
    } else {
      assert s == s[..0] + [s[0]];
    }
  }

  /** A string of k digits denotes a number in [0, 10^k). */
  lemma {:induction false} ValueBound(s: string)
    requires forall i :: 0 <= i < |s| ==> IsDigit(s[i])
    ensures 0 <= Value(s) < Pow10(|s|)
  {
    if s != [] {
      ValueBound(s[..|s| - 1]);
    }
  }

  /** One pass of the digit-writing loop: with `copy` the value of the digits
      still to write and `base` the place of the first of them, `copy/base`
      is that digit and `copy %= base` leaves the value of the rest. */
  lemma LeadStep(s: string, base: int)
    requires |s| >= 1 && base == Pow10(|s| - 1)
    requires forall i :: 0 <= i < |s| ==> IsDigit(s[i])
    ensures CDiv(Value(s), base) == DigitValue(s[0])
    ensures CRem(Value(s), base) == Value(s[1..])
    ensures 0 <= DigitValue(s[0]) < 10 && DigitChar(DigitValue(s[0])) == s[0]
  {
    ValueLeading(s);
    PlaceIsProduct(DigitValue(s[0]), |s| - 1);
    ValueBound(s);
    ValueBound(s[1..]);
    DivModUnique(Value(s), base, DigitValue(s[0]), Value(s[1..]));
  }

  /** One pass of the digit-writing loop, stated on its variables: the digit
      written is ds[i], and `copy` and `base` move on to the rest. */
  lemma WriteStep(ds: string, i: nat, copy: int, base: int)
    requires i < |ds| && copy == Value(ds[i..])
    requires forall k :: 0 <= k < |ds| ==> IsDigit(ds[k])
    requires base == Pow10(|ds| - 1 - i)
    ensures 0 <= CDiv(copy, base) < 10 && DigitChar(CDiv(copy, base)) == ds[i]
    ensures CRem(copy, base) == Value(ds[i + 1..])
    ensures i + 1 < |ds| ==> CDiv(base, 10) == Pow10(|ds| - 2 - i)
  {
    LeadStep(ds[i..], base);
    assert ds[i..][1..] == ds[i + 1..];
    if i + 1 < |ds| {
      PowStep(|ds| - 1 - i);
    }
  }

  /** The first loop of `itoa`: counts the digits of num with C's
      truncating division, multiplying `base` by ten each time, then divides
      `base` by ten once, leaving the place of the leading digit. */
  method CountDigits(num: int) returns (numDigits: nat, base: int)
    ensures numDigits == NumDigits(Abs(num))
    ensures numDigits > 0 ==> base == Pow10(numDigits - 1)
  {
    var copy := num;
    numDigits := 0;
    base := 1;
    while copy != 0
      invariant base == Pow10(numDigits)
      invariant Abs(copy) == Abs(num) / base
      invariant numDigits + NumDigits(Abs(copy)) == NumDigits(Abs(num))
      decreases Abs(copy)
    {
      DivDiv(Abs(num), base, 10);
      base := base * 10;
      copy := CDiv(copy, 10);
      numDigits := numDigits + 1;
    }
    if numDigits > 0 {
      PowStep(numDigits);
    }
    base := CDiv(base, 10);
  }

  /** The second loop of `itoa`: appends to str, from the most significant
      one down, the numDigits digits of copy, whose leading digit has place
      `base`. The digits written are those of ds, the digit string whose
      value copy is. */
  method WriteDigits(str: string, copy: int, base: int, numDigits: nat, ghost ds: string)
    returns (out: string)
    requires |ds| == numDigits && copy == Value(ds)
    requires forall i :: 0 <= i < |ds| ==> IsDigit(ds[i])
    requires numDigits > 0 ==> base == Pow10(numDigits - 1)
    ensures out == str + ds
  {
    out := str;
    var copy, base := copy, base;
    assert ds[0..] == ds;
    var i := 0;
    while i < numDigits
      invariant 0 <= i <= numDigits
      invariant out == str + ds[..i]
      invariant copy == Value(ds[i..])
      invariant i < numDigits ==> base == Pow10(numDigits - 1 - i)
    {
      WriteStep(ds, i, copy, base);
      var digit := CDiv(copy, base);
      out := out + [DigitChar(digit)];
      copy := CRem(copy, base);
      base := CDiv(base, 10);
      assert ds[..i + 1] == ds[..i] + [ds[i]];
      i := i + 1;
    }
    assert ds[..i] == ds;
  }

  /** `itoa`: "0" for zero and for more than nine digits, otherwise the sign
      and the digits. The text is returned rather than written into a
      caller's buffer. */
  method Itoa(num: int) returns (str: string)
    ensures str == Decimal(num)
  {
    var negative := num < 0;
    var numDigits, base := CountDigits(num);
    var copy := num;
    if numDigits > 9 {
      str := "0";
      return;
    }
    if num == 0 {
      str := "0";
      return;
    }
    str := if negative then "-" else "";
    if negative {
      copy := copy * -1;
    }
    DigitsWellFormed(Abs(num));
    ValueDigits(Abs(num));
    str := WriteDigits(str, copy, base, numDigits, Digits(Abs(num)));
  }

  // ---------------------------------------------------------------------
  // Properties of itoa's output
  // ---------------------------------------------------------------------

  /** The shape of `itoa`'s text: "0" for zero and for numbers of ten or more
      digits; otherwise a "-" exactly for negative numbers, followed by the
      digits of |num| with no leading zero. Its length never exceeds 10. */
  lemma DecimalShape(num: int)
    ensures num == 0 || Abs(num) >= 1000000000 ==> Decimal(num) == "0"
    ensures 0 < Abs(num) < 1000000000 ==>
      |Decimal(num)| == NumDigits(Abs(num)) + (if num < 0 then 1 else 0) &&
      (Decimal(num)[0] == '-' <==> num < 0) &&
      Decimal(num)[if num < 0 then 1 else 0] != '0'
    ensures forall i :: 0 <= i < |Decimal(num)| ==>
      IsDigit(Decimal(num)[i]) || (i == 0 && Decimal(num)[i] == '-')
    ensures 1 <= |Decimal(num)| <= 10
  {
    NumDigitsBound(Abs(num), 9);
    DigitsWellFormed(Abs(num));
  }

  /** `atoi` reads back what `itoa` wrote, for every number of at most nine
      digits; wider numbers read back as 0. */
  lemma AtoiDecimal(num: int)
    ensures Abs(num) < 1000000000 ==> Atoi(Decimal(num)) == num
    ensures Abs(num) >= 1000000000 ==> Atoi(Decimal(num)) == 0
  {
    NumDigitsBound(Abs(num), 9);
    if Abs(num) >= 1000000000 {
      AtoiDigits("0");
    } else {
      AtoiText(num);
    }
  }


  // ---------------------------------------------------------------------
  // packMessage
  // ---------------------------------------------------------------------

  /** The packet for sensor `id` carrying `data`: "0", then the body size,
      the id and the data, each between "/*" and "*/", then "1". The body
      size is the length of the id's text plus that of the data's text. */
  function Frame(id: int, data: int): (f: string)
    ensures 17 <= |f| && |f| + 1 <= 256
  {
    var idText := Decimal(id);
    var dataText := Decimal(data);
    Assemble(Decimal(|dataText| + |idText|), idText, dataText)
  }

  /** The packet layout: "0", then each of the three fields between "/*"
      and "*/", then "1". */
  function Assemble(sizeText: string, idText: string, dataText: string): string
  {
    "0" + "/*" + sizeText + "*/" + "/*" + idText + "*/" + "/*" + dataText + "*/" + "1"
  }

  /** Builds the packet by successive concatenations, as the source does
      with `strcat`. */
  method PackMessage(id: int, data: int) returns (str: string)
    ensures str == Frame(id, data)
  {
    var dataText := Itoa(data);
    var idText := Itoa(id);
    var bodySize := |dataText| + |idText|;
    var sizeText := Itoa(bodySize);
    str := Concatenate(sizeText, idText, dataText);
    FrameFields(id, data, sizeText, idText, dataText);
  }

  /** A packet is assembled from the texts of its size, id and data. */
  lemma FrameFields(id: int, data: int, sizeText: string, idText: string, dataText: string)
    requires idText == Decimal(id) && dataText == Decimal(data)
    requires sizeText == Decimal(|dataText| + |idText|)
    ensures Frame(id, data) == Assemble(sizeText, idText, dataText)
  {
  }

  /** The successive `strcat` calls of `packMessage` into the zeroed `temp`. */
  method Concatenate(sizeText: string, idText: string, dataText: string) returns (str: string)
    ensures str == Assemble(sizeText, idText, dataText)
  {
    str := "0";
    str := str + "/*";
    str := str + sizeText;
    str := str + "*/";
    str := str + "/*";
    str := str + idText;
    str := str + "*/";
    str := str + "/*";
    str := str + dataText;
    str := str + "*/";
    str := str + "1";
  }

  /** A packet starts with '0' and ends with '1'; its length is 14 plus the
      lengths of the three fields, and it fits, with its terminating NUL,
      in the 256-byte buffer of `main`. */
  lemma FrameShape(id: int, data: int)
    ensures var f := Frame(id, data);
      f[0] == '0' && f[|f| - 1] == '1' &&
      |f| == 14 + |Decimal(|Decimal(data)| + |Decimal(id)|)| + |Decimal(data)| + |Decimal(id)| &&
      |f| + 1 <= 256
  {
    DecimalShape(id);
    DecimalShape(data);
    DecimalShape(|Decimal(data)| + |Decimal(id)|);
  }

  // ---------------------------------------------------------------------
  // A reference decoder for packets
  // ---------------------------------------------------------------------

  datatype Packet = Packet(size: int, id: int, data: int)

  /** The longest prefix of s without '*'. */
  function TakeField(s: string): (f: string)
    ensures |f| <= |s| && f == s[..|f|]
  {
    if s == [] || s[0] == '*' then [] else [s[0]] + TakeField(s[1..])
  }

  /** Splits "/*" f "*/" rest into (f, rest), f not containing '*'. */
  function Field(s: string): Option<(string, string)>
  {
    if |s| >= 2 && s[0] == '/' && s[1] == '*' then
      var f := TakeField(s[2..]);
      var rest := s[2 + |f|..];
      if |rest| >= 2 && rest[0] == '*' && rest[1] == '/' then Some((f, rest[2..])) else None
    else None
  }

  /** Reads a packet back: the three fields, each parsed as `atoi` would. */
  function Unpack(frame: string): Option<Packet>
  {
    if |frame| >= 2 && frame[0] == '0' && frame[|frame| - 1] == '1' then
      var body := frame[1..|frame| - 1];
      match Field(body)
      case None => None
      case Some((sizeText, rest1)) =>
        match Field(rest1)
        case None => None
        case Some((idText, rest2)) =>
          match Field(rest2)
          case None => None
          case Some((dataText, rest3)) =>
            if rest3 == [] then Some(Packet(Atoi(sizeText), Atoi(idText), Atoi(dataText))) else None
    else None
  }

  lemma {:induction false} TakeFieldStops(f: string, rest: string)
    requires forall i :: 0 <= i < |f| ==> f[i] != '*'
    ensures TakeField(f + "*/" + rest) == f
  {
    if f != [] {
      assert (f + "*/" + rest)[1..] == f[1..] + "*/" + rest;
      TakeFieldStops(f[1..], rest);
    }
  }

  lemma FieldOf(f: string, rest: string)
    requires forall i :: 0 <= i < |f| ==> f[i] != '*'
    ensures Field("/*" + f + "*/" + rest) == Some((f, rest))
  {
    var s := "/*" + f + "*/" + rest;
    assert s[2..] == f + "*/" + rest;
    TakeFieldStops(f, rest);
    assert s[2 + |f|..] == "*/" + rest;
  }

  lemma DecimalHasNoStar(num: int)
    ensures forall i :: 0 <= i < |Decimal(num)| ==> Decimal(num)[i] != '*'
  {
    DecimalShape(num);
  }

  lemma DecimalLength(num: int)
    ensures 1 <= |Decimal(num)| <= 10
  {
    DecimalShape(num);
  }

  /** Decoding a packet assembled from three star-free fields gives back
      the fields as `atoi` reads them. */
  lemma UnpackFields(sizeText: string, idText: string, dataText: string)
    requires forall i :: 0 <= i < |sizeText| ==> sizeText[i] != '*'
    requires forall i :: 0 <= i < |idText| ==> idText[i] != '*'
    requires forall i :: 0 <= i < |dataText| ==> dataText[i] != '*'
    ensures Unpack(Assemble(sizeText, idText, dataText)) ==
      Some(Packet(Atoi(sizeText), Atoi(idText), Atoi(dataText)))
  {
    var rest3: string := [];
    var rest2 := "/*" + dataText + "*/" + rest3;
    var rest1 := "/*" + idText + "*/" + rest2;
    AssembleBody(sizeText, idText, dataText);
    FieldOf(sizeText, rest1);
    FieldOf(idText, rest2);
    FieldOf(dataText, rest3);
  }

  /** Between the leading '0' and the trailing '1' of a packet lie the three
      framed fields. */
  lemma AssembleBody(sizeText: string, idText: string, dataText: string)
    ensures var f := Assemble(sizeText, idText, dataText);
      |f| >= 2 && f[0] == '0' && f[|f| - 1] == '1' &&
      f[1..|f| - 1] == "/*" + sizeText + "*/" + ("/*" + idText + "*/" + ("/*" + dataText + "*/" + []))
  {
    var body := "/*" + sizeText + "*/" + ("/*" + idText + "*/" + ("/*" + dataText + "*/" + []));
    assert Assemble(sizeText, idText, dataText) == "0" + body + "1";
  }

  /** Round trip: decoding a packet gives back the body size, and the id and
      the data as `atoi` reads them (the numbers themselves when they have at
      most nine digits). */
  lemma UnpackFrame(id: int, data: int)
    ensures Unpack(Frame(id, data)) ==
      Some(Packet(|Decimal(data)| + |Decimal(id)|, Atoi(Decimal(id)), Atoi(Decimal(data))))
    ensures Abs(id) < 1000000000 && Abs(data) < 1000000000 ==>
      Unpack(Frame(id, data)) == Some(Packet(|Decimal(data)| + |Decimal(id)|, id, data))
  {
    var idText, dataText := Decimal(id), Decimal(data);
    var size := |dataText| + |idText|;
    DecimalHasNoStar(id);
    DecimalHasNoStar(data);
    DecimalHasNoStar(size);
    DecimalLength(id);
    DecimalLength(data);
    AtoiDecimal(size);
    AtoiDecimal(id);
    AtoiDecimal(data);
    UnpackFields(Decimal(size), idText, dataText);
  }

  // ---------------------------------------------------------------------
  // The send loop of main
  // ---------------------------------------------------------------------

  /** The reset at the top of the loop of `main`: an id above 10 goes back
      to 0. */
  function ResetTestId(testId: int): (r: int)
    ensures r <= 10
    ensures testId <= 10 ==> r == testId
  {
    if testId > 10 then 0 else testId
  }

  /** The value of `testId` when the k-th pass of the loop begins: 0 at
      first, and the previous pass's id plus 5 after it. */
  function RawTestId(k: nat): int
  {
    if k == 0 then 0 else ResetTestId(RawTestId(k - 1)) + 5
  }

  /** The id the k-th packet is sent under. */
  function SensorId(k: nat): int
  {
    ResetTestId(RawTestId(k))
  }

  /** The ids sent cycle 0, 5, 10, 0, 5, 10, ... */
  lemma {:induction false} SensorIdCycle(k: nat)
    ensures SensorId(k) == 5 * (k % 3)
    ensures SensorId(k) in {0, 5, 10}
  {
    if k > 0 {
      SensorIdCycle(k - 1);
    }
  }

  /** What the k-th pass of the loop of `main` writes for the line it read:
      the line read as a number with `atoi`, framed under the k-th sensor
      id, followed by the terminating NUL. */
  function Message(k: nat, line: string): string
  {
    Frame(SensorId(k), Atoi(line)) + ['\0']
  }

  /** One pass of the loop of `main`, pass k: the line read as a number with
      `atoi`, packed under the current id, and copied with its NUL into the
      buffer that is written to the socket. */
  method SendLine(k: nat, testId: int, line: string) returns (packet: string)
    requires testId == SensorId(k)
    ensures packet == Message(k, line)
  {
    var temp := PackMessage(testId, Atoi(line));
    packet := temp + ['\0'];
  }

  /** Appending the k-th message keeps every earlier message in place. */
  lemma AppendMessage(packets: seq<string>, packet: string, lines: seq<string>)
    requires |packets| < |lines|
    requires forall j {:trigger packets[j]} :: 0 <= j < |packets| ==> packets[j] == Message(j, lines[j])
    requires packet == Message(|packets|, lines[|packets|])
    ensures forall j {:trigger (packets + [packet])[j]} :: 0 <= j <= |packets| ==>
      (packets + [packet])[j] == Message(j, lines[j])
  {
    forall j | 0 <= j <= |packets|
      ensures (packets + [packet])[j] == Message(j, lines[j])
    {
      if j < |packets| {
        assert (packets + [packet])[j] == packets[j];
      }
    }
  }

  /** The loop of `main` over the given input lines (stdin is a parameter
      here): the k-th line is read as a number with `atoi` and framed under
      the k-th sensor id, and the frame with its terminating NUL is what is
      written to the socket. */
  method SendLoop(lines: seq<string>) returns (packets: seq<string>)
    ensures |packets| == |lines|
    ensures forall k {:trigger packets[k]} :: 0 <= k < |lines| ==> packets[k] == Message(k, lines[k])
  {
    var testId := 0;
    packets := [];
    var k := 0;
    while k < |lines|
      invariant 0 <= k <= |lines|
      invariant testId == RawTestId(k)
      invariant |packets| == k
      invariant forall j {:trigger packets[j]} :: 0 <= j < k ==> packets[j] == Message(j, lines[j])
    {
      packets, testId := SendPass(k, testId, lines, packets);
      k := k + 1;
    }
  }

  /** The body of the loop of `main` on pass k: the id wraps back to 0 once
      above 10, the k-th line is sent under it, and the id grows by 5. */
  method SendPass(k: nat, testId: int, lines: seq<string>, packets: seq<string>)
    returns (packets': seq<string>, testId': int)
    requires k == |packets| < |lines|
    requires testId == RawTestId(k)
    requires forall j {:trigger packets[j]} :: 0 <= j < k ==> packets[j] == Message(j, lines[j])
    ensures testId' == RawTestId(k + 1)
    ensures |packets'| == k + 1
    ensures forall j {:trigger packets'[j]} :: 0 <= j <= k ==> packets'[j] == Message(j, lines[j])
  {
    var id := testId;
    if id > 10 {
      id := 0;
    }
    var packet := SendLine(k, id, lines[k]);
    AppendMessage(packets, packet, lines);
    packets' := packets + [packet];
    testId' := id + 5;
  }
}
