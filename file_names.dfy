/**
 * Upload file names, built inline by the renderer as
 * `profile.id + "-" + Date.now() + Math.floor(Math.random() * 100) + ext`.
 * Numbers are rendered in decimal by JavaScript's string concatenation; there is
 * no separator between the timestamp and the random suffix.
 */
module FileNames {

  /** The two kinds of uploaded artifact, and their file extensions. */
  datatype Artifact = Screenshot | Clip

  function Extension(a: Artifact): string
  {
    match a
    case Screenshot => ".png"
    case Clip => ".webm"
  }

  predicate IsDigit(c: char)
  {
    '0' <= c <= '9'
  }

  predicate AllDigits(s: string)
  {
    forall i :: 0 <= i < |s| ==> IsDigit(s[i])
  }

  function DigitChar(d: nat): (c: char)
    requires d < 10
    ensures IsDigit(c) && c as int - '0' as int == d
  {
    ('0' as int + d) as char
  }

  /** The decimal rendering of a non-negative integer, as `String(n)` gives it. */
  function Decimal(n: nat): (s: string)
    ensures |s| >= 1 && AllDigits(s)
    ensures s[0] == '0' ==> n == 0
    decreases n
  {
    if n < 10 then [DigitChar(n)] else Decimal(n / 10) + [DigitChar(n % 10)]
  }

  /** The number a string of decimal digits denotes. */
  function DigitsValue(s: string): nat
    requires AllDigits(s)
  {
    if s == [] then 0 else DigitsValue(s[..|s| - 1]) * 10 + (s[|s| - 1] as int - '0' as int)
  }

  /** Reading back the decimal rendering of `n` gives `n`. */
  lemma {:induction false} DecimalRoundTrip(n: nat)
    ensures DigitsValue(Decimal(n)) == n
    decreases n
  {
    if n >= 10 {
      var s := Decimal(n);
      assert s[..|s| - 1] == Decimal(n / 10);
      DecimalRoundTrip(n / 10);
    }
  }

  /** Different numbers have different decimal renderings. */
  lemma DecimalInjective(a: nat, b: nat)
    requires Decimal(a) == Decimal(b)
    ensures a == b
  {
    DecimalRoundTrip(a);
    DecimalRoundTrip(b);
  }

  /** `Math.floor(Math.random() * 100)` for a draw `x` of `Math.random()`. */
  function RandomSuffix(x: real): (r: nat)
    requires 0.0 <= x < 1.0
    ensures r <= 99
    ensures r as real <= x * 100.0 < r as real + 1.0
  {
    (x * 100.0).Floor
  }

  /** The name under which an artifact captured at `now` with suffix `r` is uploaded. */
  function UploadName(userId: string, now: nat, r: nat, a: Artifact): (name: string)
    ensures |name| == |userId| + 1 + |Decimal(now)| + |Decimal(r)| + |Extension(a)|
    ensures name[..|userId| + 1] == userId + "-"
    ensures name[|name| - |Extension(a)|..] == Extension(a)
    ensures name[|userId| + 1..|name| - |Extension(a)|] == Decimal(now) + Decimal(r)
  {
    userId + "-" + Decimal(now) + Decimal(r) + Extension(a)
  }

  /**
   * When both timestamps have the same number of digits (true of every `Date.now()`
   * between 2001 and 2286), the name determines the timestamp, the suffix and the kind.
   */
  lemma UploadNameInjective(userId: string, now1: nat, r1: nat, a1: Artifact,
                            now2: nat, r2: nat, a2: Artifact)
    requires |Decimal(now1)| == |Decimal(now2)|
    requires UploadName(userId, now1, r1, a1) == UploadName(userId, now2, r2, a2)
    ensures now1 == now2 && r1 == r2 && a1 == a2
  {
    var n1 := UploadName(userId, now1, r1, a1);
    var n2 := UploadName(userId, now2, r2, a2);
    var d1, d2 := Decimal(now1), Decimal(now2);
    var s1, s2 := Decimal(r1), Decimal(r2);
    // The last character of ".png" and ".webm" differs, so the kinds agree.
    assert n1[|n1| - 1] == Extension(a1)[|Extension(a1)| - 1];
    assert n2[|n2| - 1] == Extension(a2)[|Extension(a2)| - 1];
    assert a1 == a2;
    var mid := n1[|userId| + 1..|n1| - |Extension(a1)|];
    assert mid == d1 + s1 && mid == d2 + s2;
    assert d1 == mid[..|d1|] == d2;
    assert s1 == mid[|d1|..] == s2;
    DecimalInjective(now1, now2);
    DecimalInjective(r1, r2);
  }

  /**
   * Without the width assumption the name is ambiguous: timestamp 12 with suffix 3 and
   * timestamp 1 with suffix 23 give the same name.
   */
  lemma UploadNameAmbiguous()
    ensures UploadName("7", 12, 3, Screenshot) == UploadName("7", 1, 23, Screenshot)
  {
    assert Decimal(12) == "12";
    assert Decimal(23) == "23";
  }
}
