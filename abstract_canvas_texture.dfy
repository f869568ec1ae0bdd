/**
 * The pure helpers of AbstractCanvasTexture: `randRange` over one draw, `mix`, and the CSS colour
 * serialiser `toCanvasColor`, with a parser for its output that gives back the three channels.
 */
module AbstractCanvasTexture {
  import opened Wrappers
  import opened Three

  /** `randRange(low, high)` once the generator has produced the draw `r`. */
  function RandRange(low: real, high: real, r: real): (x: real)
    ensures 0.0 <= r < 1.0 && low < high ==> low <= x < high
    ensures 0.0 <= r < 1.0 && high < low ==> high < x <= low
    ensures low == high ==> x == low
  {
    DrawWithin(low, high, r);
    var range := high - low;
    low + r * range
  }

  lemma PositiveProduct(a: real, b: real)
    requires a > 0.0 && b > 0.0
    ensures a * b > 0.0
  {
  }

  lemma NonNegativeProduct(a: real, b: real)
    requires a >= 0.0 && b >= 0.0
    ensures a * b >= 0.0
  {
  }

  /** A draw in [0,1) lands between the bounds, the lower one included. */
  lemma DrawWithin(low: real, high: real, r: real)
    ensures 0.0 <= r < 1.0 && low < high ==> low <= low + r * (high - low) < high
    ensures 0.0 <= r < 1.0 && high < low ==> high < low + r * (high - low) <= low
  {
    var d := high - low;
    var p := r * d;
    if 0.0 <= r < 1.0 && low < high {
      PositiveProduct(1.0 - r, d);
      NonNegativeProduct(r, d);
      assert (1.0 - r) * d == d - p;
      assert d - p > 0.0;
      assert low + p < high;
    } else if 0.0 <= r < 1.0 && high < low {
      var e := low - high;
      PositiveProduct(1.0 - r, e);
      NonNegativeProduct(r, e);
      assert (1.0 - r) * e == e + p;
      assert r * e == -p;
      assert e + p > 0.0;
      assert high < low + p <= low;
    }
  }

  /** `mix(v1, v2, amount)`: linear interpolation from `v1` towards `v2`. */
  function Mix(v1: real, v2: real, amount: real): (r: real)
    ensures amount == 0.0 ==> r == v1
    ensures amount == 1.0 ==> r == v2
    ensures v1 == v2 ==> r == v1
  {
    var dist := v2 - v1;
    v1 + dist * amount
  }

  /** `mix` is affine in `amount`: moving `amount` by `t` moves the result by `t` times the distance. */
  lemma MixAffine(v1: real, v2: real, a: real, t: real)
    ensures Mix(v1, v2, a + t) == Mix(v1, v2, a) + t * (v2 - v1)
  {
  }

  /** A draw of `randRange` is the mix of its bounds by the draw. */
  lemma RandRangeIsMix(low: real, high: real, r: real)
    ensures RandRange(low, high, r) == Mix(low, high, r)
  {
  }

  /** JavaScript `Math.round`: the nearest integer, halves rounded up. */
  function JsRound(x: real): (n: int)
    ensures x - 0.5 < n as real <= x + 0.5
  {
    (x + 0.5).Floor
  }

  /** A channel in [0,1] scaled by 255 rounds to a byte value. */
  lemma ChannelByte(c: real)
    requires 0.0 <= c <= 1.0
    ensures 0 <= JsRound(c * 255.0) <= 255
  {
  }

  predicate IsDigit(ch: char)
  {
    '0' <= ch <= '9'
  }

  predicate AllDigits(s: string)
  {
    forall i :: 0 <= i < |s| ==> IsDigit(s[i])
  }

  function DigitChar(d: nat): (ch: char)
    requires d < 10
    ensures IsDigit(ch) && ch as int - '0' as int == d
  {
    (d + '0' as int) as char
  }

  /** The decimal digits of `n`, as `String(n)` writes them. */
  function NatToString(n: nat): (s: string)
    decreases n
  {
    if n < 10 then [DigitChar(n)] else NatToString(n / 10) + [DigitChar(n % 10)]
  }

  /** `String(n)` for an integer `n`. */
  function IntToString(n: int): (s: string)
  {
    if n < 0 then "-" + NatToString(-n) else NatToString(n)
  }

  /** The value of a string of decimal digits. */
  function DigitsValue(s: string): nat
    requires AllDigits(s)
  {
    if s == [] then 0 else DigitsValue(s[..|s| - 1]) * 10 + (s[|s| - 1] as int - '0' as int)
  }

  /** How many decimal digits `s` starts with. */
  function LeadingDigits(s: string): (k: nat)
    ensures k <= |s|
  {
    if s != [] && IsDigit(s[0]) then 1 + LeadingDigits(s[1..]) else 0
  }

  /** Reads a non-empty run of digits off the front of `s`. */
  function ParseNat(s: string): Option<(nat, string)>
  {
    var k := LeadingDigits(s);
    if k == 0 then None
    else
      LeadingDigitsAreDigits(s);
      Some((DigitsValue(s[..k]), s[k..]))
  }

  /** Reads an integer, with an optional minus sign, off the front of `s`. */
  function ParseInt(s: string): Option<(int, string)>
  {
    if s != [] && s[0] == '-' then Signed(-1, ParseNat(s[1..])) else Signed(1, ParseNat(s))
  }

  function Signed(sign: int, p: Option<(nat, string)>): Option<(int, string)>
  {
    match p
    case Some((v, rest)) => Some((sign * v, rest))
    case None => None
  }

  /** Reads a channel value and the ", " that follows it. */
  function ParseChannel(s: string): Option<(int, string)>
  {
    match ParseInt(s)
    case None => None
    case Some((v, rest)) =>
      match Expect(", ", rest)
      case None => None
      case Some(t) => Some((v, t))
  }

  /** Strips `prefix` off the front of `s`. */
  function Expect(prefix: string, s: string): Option<string>
  {
    if |prefix| <= |s| && s[..|prefix|] == prefix then Some(s[|prefix|..]) else None
  }

  /** The CSS colour string "rgba(R, G, B, 1.0)" of three integer channels. */
  function RgbaString(r: int, g: int, b: int): (s: string)
  {
    "rgba(" + (IntToString(r) + (", " + (IntToString(g) + (", " + (IntToString(b) + ", 1.0)")))))
  }

  /** The three integer channels `toCanvasColor` writes: each scaled by 255 and rounded. */
  function CanvasChannels(c: Color): (int, int, int)
  {
    (JsRound(c.r * 255.0), JsRound(c.g * 255.0), JsRound(c.b * 255.0))
  }

  /** `toCanvasColor(c)`: the CSS colour of the scaled, rounded channels. */
  function ToCanvasColor(c: Color): (s: string)
  {
    var t := CanvasChannels(c);
    RgbaString(t.0, t.1, t.2)
  }

  /** Reads back the three integer channels of a string "rgba(R, G, B, 1.0)". */
  function ParseCanvasColor(s: string): Option<(int, int, int)>
  {
    match Expect("rgba(", s)
    case None => None
    case Some(s1) =>
      match ParseChannel(s1)
      case None => None
      case Some((r, s2)) =>
        match ParseChannel(s2)
        case None => None
        case Some((g, s3)) =>
          match ParseInt(s3)
          case None => None
          case Some((b, s4)) => if s4 == ", 1.0)" then Some((r, g, b)) else None
  }

  lemma LeadingDigitsAreDigits(s: string)
    ensures AllDigits(s[..LeadingDigits(s)])
  {
    if s != [] && IsDigit(s[0]) {
      LeadingDigitsAreDigits(s[1..]);
      assert s[..LeadingDigits(s)] == [s[0]] + s[1..][..LeadingDigits(s[1..])];
    }
  }

  lemma {:induction false} NatToStringDigits(n: nat)
    ensures NatToString(n) != [] && AllDigits(NatToString(n))
    ensures DigitsValue(NatToString(n)) == n
    decreases n
  {
    if n >= 10 {
      NatToStringDigits(n / 10);
      var s := NatToString(n);
      assert s[..|s| - 1] == NatToString(n / 10);
    }
  }

  lemma {:induction false} LeadingDigitsOf(d: string, rest: string)
    requires AllDigits(d)
    requires rest == [] || !IsDigit(rest[0])
    ensures LeadingDigits(d + rest) == |d|
    decreases |d|
  {
    if d != [] {
      assert (d + rest)[1..] == d[1..] + rest;
      LeadingDigitsOf(d[1..], rest);
    } else {
      assert d + rest == rest;
    }
  }

  lemma ParseNatOf(n: nat, rest: string)
    requires rest == [] || !IsDigit(rest[0])
    ensures ParseNat(NatToString(n) + rest) == Some((n, rest))
  {
    var d := NatToString(n);
    NatToStringDigits(n);
    LeadingDigitsOf(d, rest);
    assert (d + rest)[..|d|] == d;
    assert (d + rest)[|d|..] == rest;
  }

  /** `ParseInt` inverts `IntToString` on anything followed by a non-digit. */
  lemma ParseIntOf(n: int, rest: string)
    requires rest == [] || !IsDigit(rest[0])
    ensures ParseInt(IntToString(n) + rest) == Some((n, rest))
  {
    if n < 0 {
      ParseNegativeOf(n, rest);
    } else {
      ParseNonNegativeOf(n, rest);
    }
  }

  /** A negative number: the sign, then its magnitude's digits. */
  lemma ParseNegativeOf(n: int, rest: string)
    requires n < 0 && (rest == [] || !IsDigit(rest[0]))
    ensures ParseInt(IntToString(n) + rest) == Some((n, rest))
  {
    var d := NatToString(-n) + rest;
    assert IntToString(n) + rest == ['-'] + d;
    ParseMinus(d);
    ParseNatOf(-n, rest);
  }

  /** After a minus sign, `ParseInt` reads a natural number and negates it. */
  lemma ParseMinus(d: string)
    ensures ParseInt(['-'] + d) == Signed(-1, ParseNat(d))
  {
    assert (['-'] + d)[1..] == d;
  }

  /** A number without a sign: it starts with a digit, so it is not read as negative. */
  lemma ParseNonNegativeOf(n: nat, rest: string)
    requires rest == [] || !IsDigit(rest[0])
    ensures ParseInt(IntToString(n) + rest) == Some((n, rest))
  {
    var s := IntToString(n) + rest;
    NatToStringDigits(n);
    assert s[0] == NatToString(n)[0];
    ParseNatOf(n, rest);
  }

  lemma ExpectOf(prefix: string, t: string)
    ensures Expect(prefix, prefix + t) == Some(t)
  {
    assert (prefix + t)[..|prefix|] == prefix;
    assert (prefix + t)[|prefix|..] == t;
  }

  lemma ParseChannelOf(n: int, t: string)
    ensures ParseChannel(IntToString(n) + (", " + t)) == Some((n, t))
  {
    ParseIntOf(n, ", " + t);
    ExpectOf(", ", t);
  }

  /** The colour string of three integer channels reads back as those channels. */
  lemma {:induction false} ParseCanvasColorOf(r: int, g: int, b: int)
    ensures ParseCanvasColor(RgbaString(r, g, b)) == Some((r, g, b))
  {
    var t3 := IntToString(b) + ", 1.0)";
    var t2 := IntToString(g) + (", " + t3);
    var t1 := IntToString(r) + (", " + t2);
    ExpectOf("rgba(", t1);
    ParseChannelOf(r, t2);
    ParseChannelOf(g, t3);
    ParseIntOf(b, ", 1.0)");
  }

  /** Round trip: the string `toCanvasColor` emits reads back as the three rounded, 255-scaled
      channels. */
  lemma ToCanvasColorRoundTrip(c: Color)
    ensures ParseCanvasColor(ToCanvasColor(c)) == Some(CanvasChannels(c))
  {
    var t := CanvasChannels(c);
    ParseCanvasColorOf(t.0, t.1, t.2);
  }

  /** For channels in [0,1] the emitted components are bytes. */
  lemma ToCanvasColorBytes(c: Color)
    requires 0.0 <= c.r <= 1.0 && 0.0 <= c.g <= 1.0 && 0.0 <= c.b <= 1.0
    ensures match ParseCanvasColor(ToCanvasColor(c))
            case Some((r, g, b)) => 0 <= r <= 255 && 0 <= g <= 255 && 0 <= b <= 255
            case None => false
  {
    ToCanvasColorRoundTrip(c);
    ChannelByte(c.r);
    ChannelByte(c.g);
    ChannelByte(c.b);
  }
}
