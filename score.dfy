/**
 * The score aggregator (ScoreManager.cs): a singleton holding a running integer
 * total and the text shown on screen, which is the total in .NET's "D7" format.
 */
module Score {
  import opened Wrappers

  const Int32Min: int := -0x8000_0000
  const Int32Max: int := 0x7FFF_FFFF

  /** The score is a C# int; the model keeps it inside the 32-bit range instead of wrapping. */
  predicate InInt32(x: int)
  {
    Int32Min <= x <= Int32Max
  }

  /** Minimum number of digits of the "D7" format specifier. */
  const Width: nat := 7

  function Pow10(k: nat): (r: nat)
    ensures r >= 1
  {
    if k == 0 then 1 else 10 * Pow10(k - 1)
  }

  predicate IsDigit(c: char)
  {
    '0' <= c <= '9'
  }

  predicate AllDigits(s: string)
  {
    forall i :: 0 <= i < |s| ==> IsDigit(s[i])
  }

  function DigitValue(c: char): (d: nat)
    requires IsDigit(c)
    ensures d < 10
  {
    c as int - '0' as int
  }

  function DigitChar(d: nat): (c: char)
    requires d < 10
    ensures IsDigit(c) && DigitValue(c) == d
  {
    (d + '0' as int) as char
  }

  /** The shortest decimal rendering of n: no sign, no leading zero except for 0 itself. */
  function Digits(n: nat): (s: string)
    ensures 1 <= |s| && AllDigits(s)
    ensures |s| > 1 ==> s[0] != '0'
    decreases n
  {
    if n < 10 then [DigitChar(n)] else Digits(n / 10) + [DigitChar(n % 10)]
  }

  function Zeros(k: nat): (s: string)
    ensures |s| == k && AllDigits(s)
    ensures forall i :: 0 <= i < k ==> s[i] == '0'
  {
    seq(k, _ => '0')
  }

  /** String.PadLeft(width, '0'): a string already as wide as width is left alone. */
  function PadWithZeros(s: string, width: nat): string
  {
    if |s| < width then Zeros(width - |s|) + s else s
  }

  /** Int32.ToString("D7"): at least seven digits, zero-padded, with a leading '-' for negatives. */
  function FormatD7(n: int): (s: string)
    ensures |s| >= Width
    ensures n >= 0 ==> AllDigits(s)
    ensures n < 0 ==> s[0] == '-' && AllDigits(s[1..])
  {
    if n < 0 then "-" + PadWithZeros(Digits(-n), Width) else PadWithZeros(Digits(n), Width)
  }

  /** The value of a string of decimal digits (the empty string reads as 0). */
  function ParseDigits(s: string): nat
    requires AllDigits(s)
    decreases |s|
  {
    if s == [] then 0 else 10 * ParseDigits(s[..|s| - 1]) + DigitValue(s[|s| - 1])
  }

  /** Reads back a decimal integer with an optional leading '-'. */
  function ParseInteger(s: string): Option<int>
  {
    if |s| > 1 && s[0] == '-' && AllDigits(s[1..]) then Some(-(ParseDigits(s[1..]) as int))
    else if |s| > 0 && AllDigits(s) then Some(ParseDigits(s))
    else None
  }

  lemma ParseDigitsSnoc(s: string, c: char)
    requires AllDigits(s) && IsDigit(c)
    ensures AllDigits(s + [c]) && ParseDigits(s + [c]) == 10 * ParseDigits(s) + DigitValue(c)
  {
    assert (s + [c])[..|s|] == s;
  }

  lemma {:induction false} ParseDigitsOfDigits(n: nat)
    ensures ParseDigits(Digits(n)) == n
    decreases n
  {
    if n >= 10 {
      ParseDigitsOfDigits(n / 10);
      ParseDigitsSnoc(Digits(n / 10), DigitChar(n % 10));
    }
  }

  lemma {:induction false} ParseDigitsOfZeros(k: nat)
    ensures ParseDigits(Zeros(k)) == 0
  {
    if k > 0 {
      assert Zeros(k)[..k - 1] == Zeros(k - 1);
      ParseDigitsOfZeros(k - 1);
    }
  }

  /** Leading zeros do not change the value of a digit string. */
  lemma {:induction false} ParseIgnoresLeadingZeros(k: nat, s: string)
    requires AllDigits(s)
    ensures AllDigits(Zeros(k) + s) && ParseDigits(Zeros(k) + s) == ParseDigits(s)
    decreases |s|
  {
    if s == [] {
      assert Zeros(k) + s == Zeros(k);
      ParseDigitsOfZeros(k);
    } else {
      var init, last := s[..|s| - 1], s[|s| - 1];
      assert s == init + [last];
      assert Zeros(k) + s == (Zeros(k) + init) + [last];
      ParseIgnoresLeadingZeros(k, init);
      ParseDigitsSnoc(Zeros(k) + init, last);
      ParseDigitsSnoc(init, last);
    }
  }

  lemma PaddedDigitsParse(n: nat)
    ensures AllDigits(PadWithZeros(Digits(n), Width))
    ensures ParseDigits(PadWithZeros(Digits(n), Width)) == n
  {
    ParseDigitsOfDigits(n);
    if |Digits(n)| < Width {
      ParseIgnoresLeadingZeros(Width - |Digits(n)|, Digits(n));
    }
  }

  /** The displayed text parses back to the score, for every 32-bit (indeed every) integer. */
  lemma FormatD7RoundTrip(n: int)
    ensures ParseInteger(FormatD7(n)) == Some(n)
  {
    if n < 0 {
      PaddedDigitsParse(-n);
      assert FormatD7(n)[1..] == PadWithZeros(Digits(-n), Width);
    } else {
      PaddedDigitsParse(n);
    }
  }

  /** Digits(n) has at most k characters exactly when n is below 10^k. */
  lemma {:induction false} DigitsLength(n: nat, k: nat)
    requires k >= 1
    ensures |Digits(n)| <= k <==> n < Pow10(k)
    decreases n
  {
    if n >= 10 {
      if k == 1 {
        DigitsAtLeastTwo(n);
      } else {
        DigitsLength(n / 10, k - 1);
      }
    } else {
      Pow10AtLeastTen(k);
    }
  }

  lemma DigitsAtLeastTwo(n: nat)
    requires n >= 10
    ensures |Digits(n)| >= 2
  {
  }

  lemma {:induction false} Pow10AtLeastTen(k: nat)
    requires k >= 1
    ensures Pow10(k) >= 10
  {
    if k > 1 { Pow10AtLeastTen(k - 1); }
  }

  /**
   * Shape of the "D7" text: for 0 <= n < 10^7 exactly seven digits, zero-padded on
   * the left; from 10^7 on the plain digits, more than seven of them.
   */
  lemma FormatD7Shape(n: int)
    ensures 0 <= n < Pow10(Width) ==>
      |FormatD7(n)| == Width && AllDigits(FormatD7(n)) &&
      FormatD7(n) == Zeros(Width - |Digits(n)|) + Digits(n)
    ensures n >= Pow10(Width) ==> FormatD7(n) == Digits(n) && |FormatD7(n)| > Width
    ensures n < 0 ==> FormatD7(n) == "-" + FormatD7(-n)
  {
    if n >= 0 {
      DigitsLength(n, Width);
    }
  }

  /** Holds the static ScoreManager.Instance reference. */
  class ScoreRegistry {
    var instance: ScoreManager?

    constructor ()
      ensures instance == null
    {
      instance := null;
    }
  }

  class ScoreManager {
    var currentScore: int
    /** The text of the on-screen score label. */
    var scoreText: string

    ghost predicate Valid()
      reads this
    {
      InInt32(currentScore)
    }

    /** A freshly loaded manager: the int field starts at 0, the label shows its authored text. */
    constructor (labelText: string)
      ensures Valid() && currentScore == 0 && scoreText == labelText
    {
      currentScore := 0;
      scoreText := labelText;
    }

    /** Registers this manager as the singleton (the last one to wake wins) and clears the score. */
    method Awake(registry: ScoreRegistry)
      modifies this, registry
      ensures Valid() && registry.instance == this
      ensures currentScore == 0 && scoreText == old(scoreText)
    {
      registry.instance := this;
      currentScore := 0;
    }

    /** Adds points (of any sign) and shows the new total; the label reads back as the total. */
    method AddScore(points: int)
      requires InInt32(currentScore + points)
      modifies this
      ensures Valid()
      ensures currentScore == old(currentScore) + points
      ensures scoreText == FormatD7(currentScore)
      ensures ParseInteger(scoreText) == Some(currentScore)
    {
      currentScore := currentScore + points;
      scoreText := FormatD7(currentScore);
      FormatD7RoundTrip(currentScore);
    }
  }
}
