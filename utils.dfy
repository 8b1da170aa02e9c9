/** The pure formatting helpers of utils.py: `format_time` and the map-name shortening of `create_comparison_chart`. */
module Utils {
  import opened Decimal

  /** Python's `int(x)` on a float: truncation toward zero. */
  function Trunc(x: real): (i: int)
    ensures x >= 0.0 ==> i as real <= x < i as real + 1.0
    ensures x < 0.0 ==> i as real - 1.0 < x <= i as real
  {
    if x >= 0.0 then x.Floor else -((-x).Floor)
  }

  /** Python's float floor division `a // b` for a positive divisor. */
  function FloorDiv(a: real, b: real): real
    requires b > 0.0
  {
    (a / b).Floor as real
  }

  /** Python's float remainder `a % b` for a positive divisor: it takes the sign of `b`. */
  function FloorMod(a: real, b: real): real
    requires b > 0.0
  {
    a - b * FloorDiv(a, b)
  }

  /** Python's `f"{n:02d}"`: decimal, zero-padded to width two; a minus sign counts toward the width. */
  function Pad2(n: int): string {
    if n < 0 then "-" + Digits(-n)
    else if n < 10 then "0" + Digits(n)
    else Digits(n)
  }

  /** `format_time(seconds)`: `MM:SS` built from `int(seconds // 60)` and `int(seconds % 60)`. */
  function FormatTime(seconds: real): string {
    var minutes := Trunc(FloorDiv(seconds, 60.0));
    var secs := Trunc(FloorMod(seconds, 60.0));
    Pad2(minutes) + ":" + Pad2(secs)
  }

  /** `name[:20] + "..."` when the name is longer than 20 characters, else the name itself. */
  function ShortenName(name: string): (r: string)
    ensures |r| <= 23
    ensures |name| <= 20 ==> r == name
    ensures |name| > 20 ==> |r| == 23 && r[..20] == name[..20] && r[20..] == "..."
    ensures name[..if |name| < 20 then |name| else 20] <= r
  {
    if |name| > 20 then name[..20] + "..." else name
  }

  /** A non-negative number is rendered as at least two digits that read back as the number; below 100, exactly two. */
  lemma Pad2Natural(n: int)
    requires n >= 0
    ensures |Pad2(n)| >= 2 && AllDigits(Pad2(n)) && Parse(Pad2(n)) == n
    ensures n < 100 ==> |Pad2(n)| == 2
  {
    ParseDigits(n);
    if n < 10 {
      ParseLeadingZero(Digits(n));
    }
  }

  /** A negative number is rendered as a minus sign followed by the digits of its magnitude. */
  lemma Pad2Negative(n: int)
    requires n < 0
    ensures |Pad2(n)| >= 2 && Pad2(n)[0] == '-'
    ensures AllDigits(Pad2(n)[1..]) && Parse(Pad2(n)[1..]) == -n
  {
    var d := Digits(-n);
    assert Pad2(n) == "-" + d;
    assert ("-" + d)[1..] == d;
    ParseDigits(-n);
  }

  /** Python's float `//` and `%` by 60 followed by `int()` amount to integer floor division and remainder of floor(s). */
  lemma FloorDivMod60(s: real)
    ensures Trunc(FloorDiv(s, 60.0)) == s.Floor / 60
    ensures Trunc(FloorMod(s, 60.0)) == s.Floor % 60
  {
    var f := s.Floor;
    var q, r := f / 60, f % 60;
    assert f == 60 * q + r && 0 <= r < 60;
    assert q as real <= s / 60.0 < q as real + 1.0 by {
      assert 60.0 * q as real <= f as real <= s < f as real + 1.0 <= 60.0 * q as real + 60.0;
    }
    assert (s / 60.0).Floor == q;
    var x := FloorMod(s, 60.0);
    assert x == s - 60.0 * q as real;
    assert r as real <= x < r as real + 1.0;
  }

  /** The minutes field is floor(s) div 60 and the seconds field floor(s) mod 60, each formatted by Pad2. */
  lemma FormatTimeFields(seconds: real)
    ensures FormatTime(seconds) == Pad2(seconds.Floor / 60) + ":" + Pad2(seconds.Floor % 60)
  {
    FloorDivMod60(seconds);
  }

  /**
   * For a non-negative time the output is `MM:SS`: the seconds field is exactly two digits worth 0..59,
   * the minutes field at least two digits, and reading both back gives 60 * MM + SS == floor(s).
   */
  lemma FormatTimeRoundTrip(seconds: real)
    requires seconds >= 0.0
    ensures var r := FormatTime(seconds);
      && |r| >= 5 && r[|r| - 3] == ':'
      && AllDigits(r[..|r| - 3]) && AllDigits(r[|r| - 2..])
      && Parse(r[|r| - 2..]) < 60
      && 60 * Parse(r[..|r| - 3]) + Parse(r[|r| - 2..]) == seconds.Floor
  {
    FormatTimeFields(seconds);
    ClockRoundTrip(seconds.Floor);
  }

  /** The integer core of the round trip: `Pad2(f / 60) + ":" + Pad2(f % 60)` reads back as f. */
  lemma ClockRoundTrip(f: int)
    requires f >= 0
    ensures var r := Pad2(f / 60) + ":" + Pad2(f % 60);
      && |r| >= 5 && r[|r| - 3] == ':'
      && AllDigits(r[..|r| - 3]) && AllDigits(r[|r| - 2..])
      && Parse(r[|r| - 2..]) < 60
      && 60 * Parse(r[..|r| - 3]) + Parse(r[|r| - 2..]) == f
  {
    var q, m := f / 60, f % 60;
    Pad2Natural(q);
    Pad2Natural(m);
    SplitAtColon(Pad2(q), Pad2(m));
  }

  /** `mm + ":" + ss` with a two-character `ss` splits back into `mm` and `ss` around the colon. */
  lemma SplitAtColon(mm: string, ss: string)
    requires |ss| == 2
    ensures var r := mm + ":" + ss;
      && |r| == |mm| + 3 && r[|r| - 3] == ':' && r[..|r| - 3] == mm && r[|r| - 2..] == ss
  {
    var r := mm + ":" + ss;
    assert r[..|r| - 3] == mm;
    assert r[|r| - 2..] == ss;
  }

  /** Below 100 minutes the output has exactly five characters with the colon in the middle. */
  lemma FormatTimeShape(seconds: real)
    requires 0.0 <= seconds < 6000.0
    ensures |FormatTime(seconds)| == 5 && FormatTime(seconds)[2] == ':'
  {
    var f := seconds.Floor;
    FormatTimeFields(seconds);
    assert f < 6000;
    Pad2Natural(f / 60);
    Pad2Natural(f % 60);
  }

  /** A negative time gives a negative minutes field, so the output starts with a minus sign. */
  lemma FormatTimeNegative(seconds: real)
    requires seconds < 0.0
    ensures FormatTime(seconds)[0] == '-'
  {
    FormatTimeFields(seconds);
    assert seconds.Floor / 60 < 0;
    Pad2Negative(seconds.Floor / 60);
  }

  /** A negative time is shown with negative minutes and the seconds counted up from them: -1.5 s is "-1:58". */
  lemma FormatTimeNegativeExample()
    ensures FormatTime(-1.5) == "-1:58"
  {
    FormatTimeFields(-1.5);
    assert (-1.5).Floor == -2;
    assert Pad2(-1) == "-1" && Pad2(58) == "58";
  }

  /** Shortening an already shortened name changes nothing. */
  lemma ShortenNameIdempotent(name: string)
    ensures ShortenName(ShortenName(name)) == ShortenName(name)
  {
    if |name| > 20 {
      var r := ShortenName(name);
      assert r[..20] == name[..20];
    }
  }
}
