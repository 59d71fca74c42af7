/**
 * The race console's `formatTime` (renderer/pages/home.tsx): milliseconds shown
 * as `mm:ss.cc`, every field the JavaScript `toString` of an integer padded on
 * the left with '0' to at least two characters. A reading function, ParseTime,
 * is the partner against which the format is proved lossless up to centiseconds.
 */
module TimeFormat {
  import opened Wrappers

  predicate IsDigit(c: char) {
    '0' <= c <= '9'
  }

  predicate AllDigits(s: string) {
    forall i :: 0 <= i < |s| ==> IsDigit(s[i])
  }

  function DigitChar(d: nat): (c: char)
    requires d < 10
    ensures IsDigit(c) && c as int - '0' as int == d
  {
    ('0' as int + d) as char
  }

  /** The decimal numeral of n, without leading zeros. */
  function Digits(n: nat): (s: string)
    ensures 1 <= |s| && AllDigits(s)
    ensures |s| == 1 <==> n < 10
    ensures |s| == 2 <==> 10 <= n < 100
    ensures n >= 10 ==> s[0] != '0'
  {
    if n < 10 then [DigitChar(n)] else Digits(n / 10) + [DigitChar(n % 10)]
  }

  /** `n.toString()` for an integer n. */
  function NumberText(n: int): string {
    if n < 0 then "-" + Digits(-n) else Digits(n)
  }

  /** The text of a natural is its numeral, reading back as n; a negative n gets a '-' before the text of -n. */
  lemma NumberTextValue(n: int)
    ensures n >= 0 ==> 1 <= |NumberText(n)| && AllDigits(NumberText(n)) && DigitsValue(NumberText(n)) == n
    ensures n < 0 ==> NumberText(n) == "-" + NumberText(-n)
  {
    if n >= 0 {
      DigitsRoundTrip(n);
    }
  }

  /** `s.padStart(2, '0')`: zeros on the left up to length two; longer text is kept whole. */
  function PadStart2(s: string): string {
    if |s| >= 2 then s else if |s| == 1 then "0" + s else "00"
  }

  /** Padding keeps text of two or more characters and otherwise puts '0's before it up to length two. */
  lemma PadStart2Pads(s: string)
    ensures |s| >= 2 ==> PadStart2(s) == s
    ensures |s| < 2 ==> |PadStart2(s)| == 2 && PadStart2(s)[2 - |s|..] == s &&
                        forall i :: 0 <= i < 2 - |s| ==> PadStart2(s)[i] == '0'
  {
  }

  function Pad2(n: int): string {
    PadStart2(NumberText(n))
  }

  /** JavaScript's `a % b` for b > 0: the remainder takes the sign of the dividend. */
  function JsRem(a: int, b: int): (r: int)
    requires b > 0
    ensures -b < r < b
    ensures a >= 0 ==> r == a % b
    ensures a < 0 ==> -b < r <= 0 && (a - r) % b == 0
  {
    if a >= 0 then a % b
    else
      MultipleMod(b, -((-a) / b));
      assert a + (-a) % b == b * -((-a) / b);
      -((-a) % b)
  }

  /** A multiple of b leaves no remainder. */
  lemma MultipleMod(b: int, k: int)
    requires b > 0
    ensures (b * k) % b == 0
  {
    var d := (b * k) / b;
    var m := (b * k) % b;
    assert b * (k - d) == m by {
      assert b * k == b * d + m;
    }
    if k - d >= 1 {
      assert false;
    } else if k - d <= -1 {
      assert false;
    }
  }

  /**
   * `formatTime(time)`. `Math.floor(x / k)` for a positive k is Dafny's `/`;
   * the third field holds centiseconds although `formatTime` names it `milliseconds`.
   */
  function FormatTime(time: int): (r: string)
    ensures time >= 0 ==>
              r == Pad2(time / 60000) + ":" + Pad2(time / 1000 % 60) + "." + Pad2(time % 1000 / 10)
    ensures time >= 0 ==> 0 <= time / 1000 % 60 < 60 && 0 <= time % 1000 / 10 < 100
  {
    var totalSeconds := time / 1000;
    var minutes := totalSeconds / 60;
    var seconds := JsRem(totalSeconds, 60);
    var centis := JsRem(time, 1000) / 10;
    Pad2(minutes) + ":" + Pad2(seconds) + "." + Pad2(centis)
  }

  /** The value of a string of decimal digits. */
  function DigitsValue(s: string): nat
    requires AllDigits(s)
  {
    if s == [] then 0 else DigitsValue(s[..|s| - 1]) * 10 + (s[|s| - 1] as int - '0' as int)
  }

  /**
   * Reads `m:ss.cc` text (minutes of two or more digits, two-digit seconds
   * and centiseconds) back to milliseconds; None for text of any other shape.
   */
  function ParseTime(s: string): (r: Option<nat>)
    ensures r.Some? ==> r.value % 10 == 0
  {
    if |s| < 8 || s[|s| - 6] != ':' || s[|s| - 3] != '.' then None
    else FieldsTime(s[..|s| - 6], s[|s| - 5..|s| - 3], s[|s| - 2..])
  }

  /** The milliseconds that minutes, seconds and centiseconds fields stand for, if all are digits. */
  function FieldsTime(minutes: string, seconds: string, centis: string): (r: Option<nat>)
    ensures r.Some? ==> r.value % 10 == 0
  {
    if AllDigits(minutes) && AllDigits(seconds) && AllDigits(centis) then
      Some(DigitsValue(minutes) * 60000 + DigitsValue(seconds) * 1000 + DigitsValue(centis) * 10)
    else None
  }

  lemma {:induction false} DigitsRoundTrip(n: nat)
    ensures DigitsValue(Digits(n)) == n
  {
    if n >= 10 {
      var s := Digits(n);
      assert s[..|s| - 1] == Digits(n / 10);
      DigitsRoundTrip(n / 10);
    }
  }

  lemma {:induction false} LeadingZero(s: string)
    requires AllDigits(s)
    ensures AllDigits("0" + s) && DigitsValue("0" + s) == DigitsValue(s)
  {
    if s != [] {
      assert ("0" + s)[..|s|] == "0" + s[..|s| - 1];
      LeadingZero(s[..|s| - 1]);
    }
  }

  /** A padded field of a natural number: at least two digits, exactly two below 100, and the same value. */
  lemma Pad2Field(n: nat)
    ensures AllDigits(Pad2(n)) && |Pad2(n)| >= 2 && DigitsValue(Pad2(n)) == n
    ensures n < 100 ==> |Pad2(n)| == 2
  {
    DigitsRoundTrip(n);
    if n < 10 {
      LeadingZero(Digits(n));
    }
  }

  /** ParseTime finds the three fields of `m:ss.cc` text, for minutes of two or more characters. */
  lemma ParseFields(m: string, sec: string, cs: string)
    requires |m| >= 2 && |sec| == 2 && |cs| == 2
    ensures ParseTime(m + ":" + sec + "." + cs) == FieldsTime(m, sec, cs)
  {
    var s := m + ":" + sec + "." + cs;
    assert s[|s| - 6] == ':' && s[|s| - 3] == '.';
    assert s[..|s| - 6] == m;
    assert s[|s| - 5..|s| - 3] == sec;
    assert s[|s| - 2..] == cs;
  }

  /** Padded minutes, seconds and centiseconds read back to the milliseconds they stand for. */
  lemma ParsePadded(m: nat, sec: nat, cs: nat)
    requires sec < 100 && cs < 100
    ensures ParseTime(Pad2(m) + ":" + Pad2(sec) + "." + Pad2(cs)) == Some(m * 60000 + sec * 1000 + cs * 10)
  {
    Pad2Field(m);
    Pad2Field(sec);
    Pad2Field(cs);
    ParseFields(Pad2(m), Pad2(sec), Pad2(cs));
  }

  /** Formatting then reading recovers the time to the centisecond (the round trip). */
  lemma ParseFormat(t: nat)
    ensures ParseTime(FormatTime(t)) == Some(t - t % 10)
  {
    var m, sec, cs := t / 60000, t / 1000 % 60, t % 1000 / 10;
    assert FormatTime(t) == Pad2(m) + ":" + Pad2(sec) + "." + Pad2(cs);
    ParsePadded(m, sec, cs);
    FieldsCover(t);
  }

  lemma FieldsCover(t: nat)
    ensures (t / 60000) * 60000 + (t / 1000 % 60) * 1000 + (t % 1000 / 10) * 10 == t - t % 10
  {
  }

  /** Times in the same 10 ms bucket, and only those, format identically. */
  lemma FormatSameBucket(t1: nat, t2: nat)
    ensures FormatTime(t1) == FormatTime(t2) <==> t1 / 10 == t2 / 10
  {
    if FormatTime(t1) == FormatTime(t2) {
      ParseFormat(t1);
      ParseFormat(t2);
      assert t1 - t1 % 10 == 10 * (t1 / 10);
      assert t2 - t2 % 10 == 10 * (t2 / 10);
    }
    if t1 / 10 == t2 / 10 {
      BucketFields(t1);
      BucketFields(t2);
    }
  }

  /** Every field of the format depends on t only through its 10 ms bucket t / 10. */
  lemma BucketFields(t: nat)
    ensures t / 60000 == t / 10 / 6000 && t / 1000 % 60 == t / 10 / 100 % 60 && t % 1000 / 10 == t / 10 % 100
  {
    assert t / 1000 == t / 10 / 100;
  }
}
