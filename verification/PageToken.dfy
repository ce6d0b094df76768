/** Opaque page tokens: a UTC timestamp in RFC 3339 text, a NUL, the row id, in unpadded
    base64url. */
module PageToken {
  import opened Domain

  newtype Byte = x: int | 0 <= x < 256

  type Bytes = seq<Byte>

  // ---- base64url without padding (section 5 of RFC 4648) ----

  function Letter(i: nat): char
    requires i < 64
  {
    if i < 26 then ('A' as int + i) as char
    else if i < 52 then ('a' as int + i - 26) as char
    else if i < 62 then ('0' as int + i - 52) as char
    else if i == 62 then '-' else '_'
  }

  function Index(c: char): Option<nat> {
    if 'A' <= c <= 'Z' then Some(c as int - 'A' as int)
    else if 'a' <= c <= 'z' then Some(c as int - 'a' as int + 26)
    else if '0' <= c <= '9' then Some(c as int - '0' as int + 52)
    else if c == '-' then Some(62) else if c == '_' then Some(63) else None
  }

  lemma IndexOfLetter(i: nat)
    requires i < 64
    ensures Index(Letter(i)) == Some(i) && Letter(i) != '\n' && Letter(i) != '\r'
  {}

  /** Three bytes make four groups of six bits; one or two left-over bytes make two or three. */
  function Groups(b: Bytes): (v: seq<nat>)
    ensures forall i :: 0 <= i < |v| ==> v[i] < 64
  {
    if b == [] then []
    else
      var x := b[0] as int;
      if |b| == 1 then [x / 4, x % 4 * 16]
      else
        var y := b[1] as int;
        if |b| == 2 then [x / 4, x % 4 * 16 + y / 16, y % 16 * 4]
        else
          var z := b[2] as int;
          [x / 4, x % 4 * 16 + y / 16, y % 16 * 4 + z / 64, z % 64] + Groups(b[3..])
  }

  function Letters(v: seq<nat>): string
    requires forall i :: 0 <= i < |v| ==> v[i] < 64
  {
    if v == [] then "" else [Letter(v[0])] + Letters(v[1..])
  }

  function Encode(b: Bytes): string {
    Letters(Groups(b))
  }

  /** The decoder skips line breaks. */
  function StripBreaks(s: string): string {
    if s == "" then ""
    else (if s[0] == '\n' || s[0] == '\r' then "" else [s[0]]) + StripBreaks(s[1..])
  }

  function Sextets(s: string): Option<seq<nat>> {
    if s == "" then Some([])
    else
      match Index(s[0])
      case None => None
      case Some(i) => match Sextets(s[1..]) case None => None case Some(rest) => Some([i] + rest)
  }

  /** Trailing bits of an incomplete group are dropped; a single left-over letter is an error. */
  function Octets(v: seq<nat>): Option<Bytes> {
    if v == [] then Some([])
    else if |v| == 1 then None
    else if |v| == 2 then Some([First(v)])
    else if |v| == 3 then Some([First(v), Second(v)])
    else match Octets(v[4..]) case None => None case Some(rest) => Some([First(v), Second(v), Third(v)] + rest)
  }

  function First(v: seq<nat>): Byte
    requires |v| >= 2
  {
    ((v[0] % 64 * 4 + v[1] % 64 / 16) % 256) as Byte
  }

  function Second(v: seq<nat>): Byte
    requires |v| >= 3
  {
    (v[1] % 16 * 16 + v[2] % 64 / 4) as Byte
  }

  function Third(v: seq<nat>): Byte
    requires |v| >= 4
  {
    (v[2] % 4 * 64 + v[3] % 64) as Byte
  }

  function Decode(s: string): Option<Bytes> {
    match Sextets(StripBreaks(s)) case None => None case Some(v) => Octets(v)
  }

  lemma {:induction false} SextetsOfLetters(v: seq<nat>)
    requires forall i :: 0 <= i < |v| ==> v[i] < 64
    ensures Sextets(Letters(v)) == Some(v) && StripBreaks(Letters(v)) == Letters(v)
  {
    if v != [] {
      SextetsOfLetters(v[1..]);
      IndexOfLetter(v[0]);
      assert Letters(v)[1..] == Letters(v[1..]);
      assert Letters(v) == [Letter(v[0])] + Letters(v[1..]);
      assert [v[0]] + v[1..] == v;
    }
  }

  lemma FirstOf(x: int, low: int, v: seq<nat>)
    requires 0 <= x < 256 && 0 <= low < 16 && |v| >= 2 && v[0] == x / 4 && v[1] == x % 4 * 16 + low
    ensures First(v) as int == x
  {}

  lemma SecondOf(x: int, y: int, low: int, v: seq<nat>)
    requires 0 <= x < 256 && 0 <= y < 256 && 0 <= low < 4 && |v| >= 3
    requires v[1] == x % 4 * 16 + y / 16 && v[2] == y % 16 * 4 + low
    ensures Second(v) as int == y
  {}

  lemma ThirdOf(y: int, z: int, v: seq<nat>)
    requires 0 <= y < 256 && 0 <= z < 256 && |v| >= 4
    requires v[2] == y % 16 * 4 + z / 64 && v[3] == z % 64
    ensures Third(v) as int == z
  {}

  lemma {:induction false} OctetsOfGroups(b: Bytes)
    ensures Octets(Groups(b)) == Some(b)
  {
    var v := Groups(b);
    if |b| == 1 {
      FirstOf(b[0] as int, 0, v);
      assert b == [b[0]];
    } else if |b| == 2 {
      FirstOf(b[0] as int, b[1] as int / 16, v);
      SecondOf(b[0] as int, b[1] as int, 0, v);
      assert b == [b[0], b[1]];
    } else if |b| >= 3 {
      OctetsOfGroups(b[3..]);
      FirstOf(b[0] as int, b[1] as int / 16, v);
      SecondOf(b[0] as int, b[1] as int, b[2] as int / 64, v);
      ThirdOf(b[1] as int, b[2] as int, v);
      hide First, Second, Third;
      assert v[4..] == Groups(b[3..]);
      assert b == [b[0], b[1], b[2]] + b[3..];
    }
  }

  lemma Base64RoundTrip(b: Bytes)
    ensures Decode(Encode(b)) == Some(b)
  {
    SextetsOfLetters(Groups(b));
    OctetsOfGroups(b);
  }

  lemma ThreeBytes(x: Byte, y: Byte, z: Byte, rest: Bytes)
    ensures var v := Groups([x, y, z]);
      |v| == 4 && Encode([x, y, z] + rest) == [Letter(v[0]), Letter(v[1]), Letter(v[2]), Letter(v[3])] + Encode(rest)
  {
    var b := [x, y, z] + rest;
    var v := Groups([x, y, z]);
    assert b[3..] == rest;
    assert v == v[..4] by { assert [x, y, z][3..] == [] && Groups([]) == []; }
    assert Groups(b) == v[..4] + Groups(rest);
    FourLetters(v, Groups(rest));
  }

  lemma FourLetters(v: seq<nat>, rest: seq<nat>)
    requires |v| == 4 && forall i :: 0 <= i < |v + rest| ==> (v + rest)[i] < 64
    ensures forall i :: 0 <= i < 4 ==> v[i] < 64
    ensures forall i :: 0 <= i < |rest| ==> rest[i] < 64
    ensures Letters(v + rest) == [Letter(v[0]), Letter(v[1]), Letter(v[2]), Letter(v[3])] + Letters(rest)
  {
    var w := v + rest;
    assert forall i :: 0 <= i < 4 ==> w[i] == v[i];
    assert forall i :: 0 <= i < |rest| ==> w[i + 4] == rest[i];
    assert w[1..][1..] == w[2..] && w[2..][1..] == w[3..] && w[3..][1..] == w[4..] == rest;
    assert Letters(w[2..]) == [Letter(w[2])] + Letters(w[3..]);
  }

  /** "foobar", "fooba" and "foob" in section 10 of RFC 4648, without the padding. */
  lemma StandardVectors()
    ensures Encode([102, 111, 111, 98, 97, 114]) == "Zm9vYmFy"
    ensures Encode([102, 111, 111, 98, 97]) == "Zm9vYmE"
    ensures Encode([102, 111, 111, 98]) == "Zm9vYg"
  {
    hide Encode, Groups, Letter;
    FirstHalf([98, 97, 114]);
    FirstHalf([98, 97]);
    FirstHalf([98]);
    LastBytes();
    assert [102, 111, 111, 98, 97, 114] == [102, 111, 111] + [98, 97, 114];
    assert [102, 111, 111, 98, 97] == [102, 111, 111] + [98, 97];
    assert [102, 111, 111, 98] == [102, 111, 111] + [98];
  }

  lemma FirstHalf(rest: Bytes)
    ensures Encode([102, 111, 111] + rest) == "Zm9v" + Encode(rest)
  {
    ThreeBytes(102, 111, 111, rest);
    hide Encode;
  }

  lemma LastBytes()
    ensures Encode([98, 97, 114]) == "YmFy" && Encode([98]) == "Yg" && Encode([98, 97]) == "YmE"
  {
    ThreeBytes(98, 97, 114, []);
    assert [98, 97, 114] + [] == [98, 97, 114];
  }

  predicate UrlSafe(c: char) {
    'A' <= c <= 'Z' || 'a' <= c <= 'z' || '0' <= c <= '9' || c == '-' || c == '_'
  }

  lemma {:induction false} LettersAreSafe(v: seq<nat>)
    requires forall i :: 0 <= i < |v| ==> v[i] < 64
    ensures forall c :: c in Letters(v) ==> UrlSafe(c)
  {
    if v != [] { LettersAreSafe(v[1..]); }
  }

  // ---- timestamps (section 5.6 of RFC 3339) ----

  /** An instant by its UTC calendar fields. */
  datatype Time = Time(year: int, month: nat, day: nat, hour: nat, minute: nat, second: nat, nanos: nat)

  const ZERO_TIME := Time(1, 1, 1, 0, 0, 0, 0)

  predicate Leap(year: int) {
    year % 4 == 0 && (year % 100 != 0 || year % 400 == 0)
  }

  function DaysIn(month: nat, year: int): nat {
    if month == 2 then (if Leap(year) then 29 else 28)
    else if month in {4, 6, 9, 11} then 30 else 31
  }

  predicate Valid(t: Time) {
    && 1 <= t.month <= 12 && 1 <= t.day <= DaysIn(t.month, t.year)
    && t.hour < 24 && t.minute < 60 && t.second < 60 && t.nanos < 1_000_000_000
  }

  const NUL: Byte := 0
  const DASH: Byte := 45
  const DOT: Byte := 46
  const COLON: Byte := 58
  const LETTER_T: Byte := 84
  const LETTER_Z: Byte := 90

  predicate IsDigit(b: Byte) { 48 <= b <= 57 }

  function Digit(d: nat): Byte
    requires d < 10
  {
    (48 + d) as Byte
  }

  function Two(n: nat): Bytes
    requires n < 100
  {
    [Digit(n / 10), Digit(n % 10)]
  }

  /** Decimal digits, at least `width` of them. */
  function Padded(n: nat, width: nat): Bytes
    decreases n, width
  {
    if n < 10 && width <= 1 then [Digit(n)]
    else if n < 10 then Padded(0, width - 1) + [Digit(n)]
    else Padded(n / 10, if width == 0 then 0 else width - 1) + [Digit(n % 10)]
  }

  function YearText(year: int): Bytes {
    if year < 0 then [DASH] + Padded(-year, 4) else Padded(year, 4)
  }

  /** The last `width` decimal digits of n. */
  function Fixed(n: nat, width: nat): Bytes
    decreases width
  {
    if width == 0 then [] else Fixed(n / 10, width - 1) + [Digit(n % 10)]
  }

  function TrimZeros(b: Bytes): Bytes {
    if b != [] && b[|b| - 1] == Digit(0) then TrimZeros(b[..|b| - 1]) else b
  }

  /** Nothing for a whole second, else a dot and nine digits without the trailing zeros. */
  function Fraction(nanos: nat): Bytes {
    if nanos == 0 then [] else [DOT] + TrimZeros(Fixed(nanos, 9))
  }

  function Format(t: Time): Bytes
    requires Valid(t)
  {
    YearText(t.year) + [DASH] + Two(t.month) + [DASH] + Two(t.day) + [LETTER_T]
    + Two(t.hour) + [COLON] + Two(t.minute) + [COLON] + Two(t.second) + Fraction(t.nanos) + [LETTER_Z]
  }

  /** The first example of section 5.8 of RFC 3339: 1985-04-12T23:20:50.52Z. */
  lemma StandardText()
    ensures Format(Time(1985, 4, 12, 23, 20, 50, 520_000_000))
      == [49, 57, 56, 53, 45, 48, 52, 45, 49, 50, 84, 50, 51, 58, 50, 48, 58, 53, 48, 46, 53, 50, 90]
  {
    hide YearText, Fraction, Two;
    FourDigits(1985);
    HalfASecond();
    TwoNumbers();
  }

  lemma TwoNumbers()
    ensures Two(19) == [49, 57] && Two(85) == [56, 53] && Two(4) == [48, 52] && Two(12) == [49, 50]
    ensures Two(23) == [50, 51] && Two(20) == [50, 48] && Two(50) == [53, 48]
  {}

  lemma HalfASecond()
    ensures Fraction(520_000_000) == [DOT, 53, 50]
  {
    hide Fixed, TrimZeros, Scale;
    TrimScaled(52, 2, 7);
    Zeros(52);
    FiftyTwo();
  }

  lemma FiftyTwo()
    ensures TrimZeros(Fixed(52, 2)) == [53, 50]
  {
    assert Fixed(5, 1) == [53];
  }

  lemma Zeros(n: nat)
    ensures Scale(n, 7) == 10_000_000 * n
  {
    assert Scale(100 * n, 5) == Scale(n, 7) && Scale(10_000 * n, 3) == Scale(100 * n, 5);
  }

  /** Zeros at the end are trimmed. */
  lemma {:induction false} TrimScaled(n: nat, width: nat, zeros: nat)
    ensures TrimZeros(Fixed(Scale(n, zeros), width + zeros)) == TrimZeros(Fixed(n, width))
    decreases zeros
  {
    hide TrimZeros, Fixed;
    if zeros > 0 {
      TrimScaled(10 * n, width + 1, zeros - 1);
      TrimOne(n, width);
    }
  }

  lemma TrimOne(n: nat, width: nat)
    ensures TrimZeros(Fixed(10 * n, width + 1)) == TrimZeros(Fixed(n, width))
  {
    var b := Fixed(n, width);
    assert 10 * n / 10 == n && 10 * n % 10 == 0;
    assert Fixed(10 * n, width + 1) == b + [Digit(0)];
    assert (b + [Digit(0)])[..|b|] == b;
  }

  // ---- parsing ----

  function TwoDigits(b: Bytes): Option<nat>
    requires |b| == 2
  {
    if IsDigit(b[0]) && IsDigit(b[1]) then Some((b[0] as int - 48) * 10 + (b[1] as int - 48)) else None
  }

  predicate AllDigits(b: Bytes) {
    forall i :: 0 <= i < |b| ==> IsDigit(b[i])
  }

  function DigitValue(b: Byte): nat {
    if IsDigit(b) then b as int - 48 else 0
  }

  function Value(digits: Bytes): nat {
    if digits == [] then 0 else 10 * Value(digits[..|digits| - 1]) + DigitValue(digits[|digits| - 1])
  }

  function Scale(n: nat, zeros: nat): nat
    decreases zeros
  {
    if zeros == 0 then n else Scale(10 * n, zeros - 1)
  }

  /** Nanoseconds from fraction digits; digits after the ninth are ignored. */
  function Nanos(digits: Bytes): nat {
    if |digits| <= 9 then Scale(Value(digits), 9 - |digits|) else Value(digits[..9])
  }

  /** What follows the seconds: an optional fraction with at least one digit, and the zone Z. */
  function ParseTail(b: Bytes): Option<nat> {
    if b == [LETTER_Z] then Some(0)
    else if |b| >= 3 && b[0] == DOT && b[|b| - 1] == LETTER_Z && AllDigits(b[1..|b| - 1])
    then Some(Nanos(b[1..|b| - 1]))
    else None
  }

  /** The fixed part is 19 bytes with a year of exactly four digits. */
  function Parse(b: Bytes): Option<Time> {
    if |b| < 20 || b[4] != DASH || b[7] != DASH || b[10] != LETTER_T || b[13] != COLON || b[16] != COLON then None
    else
      match (TwoDigits(b[..2]), TwoDigits(b[2..4]), TwoDigits(b[5..7]), TwoDigits(b[8..10]),
             TwoDigits(b[11..13]), TwoDigits(b[14..16]), TwoDigits(b[17..19]), ParseTail(b[19..]))
      case (Some(c), Some(y), Some(mo), Some(d), Some(h), Some(mi), Some(s), Some(n)) =>
        var t := Time(c * 100 + y, mo, d, h, mi, s, n);
        if Valid(t) then Some(t) else None
      case _ => None
  }

  // ---- tokens ----

  datatype Cursor = Cursor(createdAt: Time, id: Bytes)

  datatype TokenError = MalformedBase64 | MalformedPayload | MalformedTimestamp

  function EncodePageToken(t: Time, id: Bytes): string
    requires Valid(t)
  {
    if t == ZERO_TIME && id == [] then "" else Encode(Format(t) + [NUL] + id)
  }

  function FirstNul(b: Bytes): (i: nat)
    ensures i <= |b| && (i < |b| ==> b[i] == NUL) && forall j :: 0 <= j < i ==> b[j] != NUL
  {
    if b == [] || b[0] == NUL then 0 else 1 + FirstNul(b[1..])
  }

  function DecodePageToken(token: string): Result<Cursor, TokenError> {
    if token == "" then Ok(Cursor(ZERO_TIME, []))
    else
      match Decode(token)
      case None => Err(MalformedBase64)
      case Some(raw) =>
        var i := FirstNul(raw);
        if i == |raw| then Err(MalformedPayload)
        else match Parse(raw[..i])
          case None => Err(MalformedTimestamp)
          case Some(t) => Ok(Cursor(t, raw[i + 1..]))
  }

  /** A token needs no escaping in a URL. */
  lemma TokenIsUrlSafe(t: Time, id: Bytes)
    requires Valid(t)
    ensures forall c :: c in EncodePageToken(t, id) ==> UrlSafe(c)
  {
    hide Format, UrlSafe;
    LettersAreSafe(Groups(Format(t) + [NUL] + id));
  }

  // ---- the round trip ----

  lemma TwoBack(n: nat)
    requires n < 100
    ensures TwoDigits(Two(n)) == Some(n)
  {}

  /** Years 0 to 9999 print as two pairs of digits. */
  lemma FourDigits(year: nat)
    requires year < 10000
    ensures YearText(year) == Two(year / 100) + Two(year % 100)
  {
    var a, b, c, d := year / 1000, year / 100 % 10, year / 10 % 10, year % 10;
    assert year / 100 / 10 == a && year / 10 / 10 == year / 100;
    PadFull(a, b, c, d, 1);
    assert year == a * 1000 + b * 100 + c * 10 + d;
  }

  lemma PadFull(a: nat, b: nat, c: nat, d: nat, w: nat)
    requires a < 10 && b < 10 && c < 10 && d < 10 && w == 1
    ensures Padded(a * 1000 + b * 100 + c * 10 + d, w + 3) == [Digit(a), Digit(b), Digit(c), Digit(d)]
  {
    var two := a * 10 + b;
    var three := two * 10 + c;
    PadOne(a, w);
    PadStep(a, b, w);
    PadStep(two, c, w + 1);
    PadStep(three, d, w + 2);
    hide Padded;
    assert a * 1000 + b * 100 + c * 10 + d == three * 10 + d;
  }

  lemma PadOne(a: nat, w: nat)
    requires a < 10 && w == 1
    ensures Padded(a, w) == [Digit(a)]
  {}

  /** One digit more on the right. */
  lemma PadStep(n: nat, d: nat, width: nat)
    requires d < 10 && width > 0
    ensures Padded(n * 10 + d, width + 1) == Padded(n, width) + [Digit(d)]
  {}

  lemma {:induction false} FixedDigits(n: nat, width: nat)
    ensures |Fixed(n, width)| == width && AllDigits(Fixed(n, width))
    decreases width
  {
    if width > 0 { FixedDigits(n / 10, width - 1); }
  }

  predicate Fits(n: nat, width: nat)
    decreases width
  {
    if width == 0 then n == 0 else Fits(n / 10, width - 1)
  }

  lemma {:induction false} FixedValue(n: nat, width: nat)
    requires Fits(n, width)
    ensures Value(Fixed(n, width)) == n
    decreases width
  {
    if width > 0 {
      FixedValue(n / 10, width - 1);
      assert Fixed(n, width)[..|Fixed(n, width)| - 1] == Fixed(n / 10, width - 1);
      assert DigitValue(Digit(n % 10)) == n % 10;
    }
  }

  /** Dropping trailing zeros changes the scale, not the number, and stops before the last digit
      of a positive number. */
  lemma {:induction false} TrimKeeps(b: Bytes)
    requires AllDigits(b)
    ensures var c := TrimZeros(b);
      && AllDigits(c) && |c| <= |b| && Scale(Value(c), |b| - |c|) == Value(b)
      && (c != [] ==> c[|c| - 1] != Digit(0)) && (Value(b) > 0 ==> c != [])
  {
    if b != [] && b[|b| - 1] == Digit(0) {
      var a := b[..|b| - 1];
      TrimKeeps(a);
      assert Value(b) == 10 * Value(a);
      ScaleTen(Value(TrimZeros(a)), |a| - |TrimZeros(a)|);
    }
  }

  lemma {:induction false} ScaleTen(n: nat, zeros: nat)
    ensures Scale(n, zeros + 1) == 10 * Scale(n, zeros)
    decreases zeros
  {
    if zeros > 0 { ScaleTen(10 * n, zeros - 1); }
  }

  lemma BillionFits(nanos: nat)
    requires nanos < 1_000_000_000
    ensures Fits(nanos, 9)
  {}

  /** The fraction is read back. */
  lemma TailBack(nanos: nat)
    requires nanos < 1_000_000_000
    ensures ParseTail(Fraction(nanos) + [LETTER_Z]) == Some(nanos)
    ensures NUL !in Fraction(nanos)
  {
    if nanos > 0 {
      BillionFits(nanos);
      FixedDigits(nanos, 9);
      FixedValue(nanos, 9);
      TrimKeeps(Fixed(nanos, 9));
      var c := TrimZeros(Fixed(nanos, 9));
      var b := Fraction(nanos) + [LETTER_Z];
      assert b == [DOT] + c + [LETTER_Z] && b[1..|b| - 1] == c;
    }
  }

  lemma TwoClean(n: nat)
    requires n < 100
    ensures NUL !in Two(n) && |Two(n)| == 2
  {}

  /** The text before the fraction. */
  function Head(c: Bytes, y: Bytes, mo: Bytes, d: Bytes, h: Bytes, mi: Bytes, s: Bytes): Bytes {
    c + y + [DASH] + mo + [DASH] + d + [LETTER_T] + h + [COLON] + mi + [COLON] + s
  }

  lemma Pieces(c: Bytes, y: Bytes, mo: Bytes, d: Bytes, h: Bytes, mi: Bytes, s: Bytes)
    requires |c| == |y| == |mo| == |d| == |h| == |mi| == |s| == 2
    ensures var b := Head(c, y, mo, d, h, mi, s);
      && |b| == 19 && b[4] == DASH && b[7] == DASH && b[10] == LETTER_T && b[13] == COLON && b[16] == COLON
      && b[0] == c[0] && b[1] == c[1] && b[2] == y[0] && b[3] == y[1] && b[5] == mo[0] && b[6] == mo[1]
      && b[8] == d[0] && b[9] == d[1] && b[11] == h[0] && b[12] == h[1] && b[14] == mi[0] && b[15] == mi[1]
      && b[17] == s[0] && b[18] == s[1]
  {}

  lemma Slices(c: Bytes, y: Bytes, mo: Bytes, d: Bytes, h: Bytes, mi: Bytes, s: Bytes, tail: Bytes, b: Bytes)
    requires |c| == |y| == |mo| == |d| == |h| == |mi| == |s| == 2
    requires b == Head(c, y, mo, d, h, mi, s) + tail
    ensures |b| == 19 + |tail| && b[4] == DASH && b[7] == DASH && b[10] == LETTER_T && b[13] == COLON && b[16] == COLON
    ensures b[..2] == c && b[2..4] == y && b[5..7] == mo && b[8..10] == d
    ensures b[11..13] == h && b[14..16] == mi && b[17..19] == s && b[19..] == tail
  {
    Pieces(c, y, mo, d, h, mi, s);
    hide Head;
  }

  /** The text of a year in range is the fixed part and the tail. */
  lemma FormatParts(t: Time)
    requires Valid(t) && 0 <= t.year <= 9999
    ensures Format(t) == Head(Two(t.year / 100), Two(t.year % 100), Two(t.month), Two(t.day),
                              Two(t.hour), Two(t.minute), Two(t.second)) + (Fraction(t.nanos) + [LETTER_Z])
  {
    FourDigits(t.year);
    hide Two, Fraction, YearText;
  }

  lemma ParseParts(c: Bytes, y: Bytes, mo: Bytes, d: Bytes, h: Bytes, mi: Bytes, s: Bytes, tail: Bytes, t: Time)
    requires |c| == |y| == |mo| == |d| == |h| == |mi| == |s| == 2 && |tail| > 0
    requires Valid(t) && 0 <= t.year <= 9999
    requires TwoDigits(c) == Some(t.year / 100) && TwoDigits(y) == Some(t.year % 100)
    requires TwoDigits(mo) == Some(t.month) && TwoDigits(d) == Some(t.day) && TwoDigits(h) == Some(t.hour)
    requires TwoDigits(mi) == Some(t.minute) && TwoDigits(s) == Some(t.second) && ParseTail(tail) == Some(t.nanos)
    ensures Parse(Head(c, y, mo, d, h, mi, s) + tail) == Some(t)
  {
    Slices(c, y, mo, d, h, mi, s, tail, Head(c, y, mo, d, h, mi, s) + tail);
    assert t.year / 100 * 100 + t.year % 100 == t.year;
    hide Head, TwoDigits, ParseTail, Valid;
  }

  lemma ParseBack(t: Time)
    requires Valid(t) && 0 <= t.year <= 9999
    ensures Parse(Format(t)) == Some(t)
  {
    FormatParts(t);
    TailBack(t.nanos);
    TwoBack(t.year / 100);
    TwoBack(t.year % 100);
    TwoBack(t.month);
    TwoBack(t.day);
    TwoBack(t.hour);
    TwoBack(t.minute);
    TwoBack(t.second);
    hide Head, TwoDigits, ParseTail, Parse, Format, Valid, Fraction;
    ParseParts(Two(t.year / 100), Two(t.year % 100), Two(t.month), Two(t.day), Two(t.hour), Two(t.minute),
               Two(t.second), Fraction(t.nanos) + [LETTER_Z], t);
  }

  lemma {:induction false} PaddedDigits(n: nat, width: nat)
    ensures AllDigits(Padded(n, width)) && |Padded(n, width)| >= width && |Padded(n, width)| > 0
    decreases n, width
  {
    if n >= 10 {
      PaddedDigits(n / 10, if width == 0 then 0 else width - 1);
    } else if width > 1 {
      PaddedDigits(0, width - 1);
    }
  }

  lemma PaddedGrows(n: nat, width: nat)
    requires n >= 10 && width > 0
    ensures Padded(n, width) == Padded(n / 10, width - 1) + [Digit(n % 10)]
  {}

  /** A year of five digits or more pushes the first dash out of its place; a negative one
      starts with a dash. */
  lemma OtherYearsUnread(t: Time)
    requires Valid(t) && !(0 <= t.year <= 9999)
    ensures Parse(Format(t)) == None && NUL !in YearText(t.year)
  {
    var n := if t.year < 0 then -t.year else t.year;
    PaddedDigits(n, 4);
    var b := Format(t);
    if t.year < 0 {
      assert b[0] == DASH;
    } else {
      PaddedGrows(n, 4);
      PaddedGrows(n / 10, 3);
      PaddedGrows(n / 10 / 10, 2);
      PaddedGrows(n / 10 / 10 / 10, 1);
      PaddedDigits(n / 10 / 10 / 10 / 10, 0);
      assert |YearText(t.year)| >= 5;
      assert b[4] == YearText(t.year)[4] && IsDigit(b[4]);
    }
  }

  lemma FormatClean(t: Time)
    requires Valid(t)
    ensures NUL !in Format(t)
  {
    if 0 <= t.year <= 9999 {
      FourDigits(t.year);
      TwoClean(t.year / 100);
      TwoClean(t.year % 100);
    } else {
      OtherYearsUnread(t);
    }
    TailBack(t.nanos);
    TwoClean(t.month); TwoClean(t.day); TwoClean(t.hour); TwoClean(t.minute); TwoClean(t.second);
    hide Two, Fraction, YearText;
  }

  lemma FirstNulIs(a: Bytes, id: Bytes)
    requires NUL !in a
    ensures FirstNul(a + [NUL] + id) == |a|
  {
    var b := a + [NUL] + id;
    var i := FirstNul(b);
    assert b[|a|] == NUL;
    assert forall j :: 0 <= j < |a| ==> b[j] == a[j] && b[j] != NUL;
  }

  /** A page token decodes to the cursor it was made from, for every id, even one with NULs in
      it, exactly when the year has four digits; for any other year it is malformed. */
  lemma PageTokenRoundTrip(t: Time, id: Bytes)
    requires Valid(t)
    ensures DecodePageToken(EncodePageToken(t, id)) == Ok(Cursor(t, id)) <==> 0 <= t.year <= 9999
    ensures !(0 <= t.year <= 9999) ==> DecodePageToken(EncodePageToken(t, id)) == Err(MalformedTimestamp)
  {
    if !(t == ZERO_TIME && id == []) {
      var raw := Format(t) + [NUL] + id;
      Base64RoundTrip(raw);
      assert Decode("") == Some([]);
      FormatClean(t);
      FirstNulIs(Format(t), id);
      assert raw[..|Format(t)|] == Format(t) && raw[|Format(t)| + 1..] == id;
      if 0 <= t.year <= 9999 { ParseBack(t); } else { OtherYearsUnread(t); }
      hide Format, Encode, Decode, Parse;
    }
  }

  /** Only the cursor before the first row encodes to the empty token. */
  lemma EmptyTokenIsStart(t: Time, id: Bytes)
    requires Valid(t)
    ensures EncodePageToken(t, id) == "" <==> t == ZERO_TIME && id == []
  {}

  /** Different cursors have different tokens. */
  lemma TokensDiffer(t: Time, id: Bytes, u: Time, other: Bytes)
    requires Valid(t) && Valid(u) && 0 <= t.year <= 9999 && 0 <= u.year <= 9999
    requires EncodePageToken(t, id) == EncodePageToken(u, other)
    ensures t == u && id == other
  {
    PageTokenRoundTrip(t, id);
    PageTokenRoundTrip(u, other);
  }
}
