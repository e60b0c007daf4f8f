/** The score overlay (src/actors/score.rs): it holds no game state; its only
    logic is the label `format!("Score: {:06}   Hi-Score: {:06}", fc, high_score)`. */
module Score {
  import opened Game
  import opened Themes

  function DigitChar(d: nat): char
    requires d < 10
  {
    "0123456789"[d]
  }

  predicate IsDigit(c: char) { '0' <= c <= '9' }

  function DigitValue(c: char): nat
    requires IsDigit(c)
  {
    (c - '0') as nat
  }

  /** The decimal digits of `n`, most significant first, without leading zeros. */
  function Decimal(n: nat): (r: seq<char>)
    decreases n
    ensures 1 <= |r|
    ensures forall i :: 0 <= i < |r| ==> IsDigit(r[i])
    ensures |r| > 1 ==> r[0] != '0'
  {
    if n < 10 then [DigitChar(n)] else Decimal(n / 10) + [DigitChar(n % 10)]
  }

  /** Reads a string of digits back as a number. */
  function DecimalValue(s: seq<char>): nat
    requires forall i :: 0 <= i < |s| ==> IsDigit(s[i])
  {
    if |s| == 0 then 0 else DecimalValue(s[..|s| - 1]) * 10 + DigitValue(s[|s| - 1])
  }

  /** `k` zero characters. */
  function Zeros(k: nat): (r: seq<char>)
    ensures |r| == k && forall i :: 0 <= i < k ==> r[i] == '0'
  {
    seq(k, i => '0')
  }

  /** Rust's `{:0w}` on an integer: the digits are padded with zeros on the
      left to `width` characters, a minus sign counting towards the width and
      coming before the zeros; a number too wide is printed in full. */
  function ZeroPadded(n: int, width: nat): (r: string)
  {
    if n >= 0 then
      var ds := Decimal(n);
      Zeros(if |ds| < width then width - |ds| else 0) + ds
    else
      var ds := Decimal(-n);
      "-" + Zeros(if |ds| + 1 < width then width - 1 - |ds| else 0) + ds
  }

  /** The text drawn in the top-left corner. */
  function Label(fc: int, highScore: int): (l: string)
    ensures |l| >= 32
    ensures l[..7] == "Score: "
  {
    "Score: " + ZeroPadded(fc, 6) + "   Hi-Score: " + ZeroPadded(highScore, 6)
  }

  /** The label is drawn in the text colour of the switcher's active palette. */
  function LabelColor(sw: ThemeSwitcher): (c: Color)
    requires sw.Valid()
    reads sw
    ensures c in sw.Current().Colors()
  {
    sw.Current().text
  }

  /** With the four standard palettes, the label is grey exactly when the
      grayscale palette (index 1) is active: the other three text colours
      are tinted. */
  lemma LabelGrayOnlyInGrayscale(sw: ThemeSwitcher)
    requires sw.Valid() && sw.themes == Palettes
    ensures IsGray(LabelColor(sw)) <==> sw.currentThemeIdx == 1
  {
    if sw.currentThemeIdx == 1 {
      GrayscaleThemeIsGray();
      assert LabelColor(sw) in GrayscaleTheme.Colors();
    }
  }

  /** Reading the digits of `n` gives `n` back. */
  lemma {:induction false} DecimalRoundTrip(n: nat)
    decreases n
    ensures DecimalValue(Decimal(n)) == n
  {
    if n >= 10 {
      DecimalRoundTrip(n / 10);
      var ds := Decimal(n);
      assert ds[..|ds| - 1] == Decimal(n / 10);
    }
  }

  /** Leading zeros do not change the value read. */
  lemma {:induction false} LeadingZeros(k: nat, s: seq<char>)
    requires forall i :: 0 <= i < |s| ==> IsDigit(s[i])
    decreases |s|
    ensures DecimalValue(Zeros(k) + s) == DecimalValue(s)
  {
    if |s| == 0 {
      assert Zeros(k) + s == Zeros(k);
      ZerosValue(k);
    } else {
      var init := s[..|s| - 1];
      LeadingZeros(k, init);
      assert (Zeros(k) + s)[..|Zeros(k) + s| - 1] == Zeros(k) + init;
    }
  }

  lemma {:induction false} ZerosValue(k: nat)
    ensures DecimalValue(Zeros(k)) == 0
  {
    if k > 0 {
      ZerosValue(k - 1);
      assert Zeros(k)[..k - 1] == Zeros(k - 1);
    }
  }

  lemma DigitsConcat(a: seq<char>, b: seq<char>)
    requires forall i :: 0 <= i < |a| ==> IsDigit(a[i])
    requires forall i :: 0 <= i < |b| ==> IsDigit(b[i])
    ensures forall i :: 0 <= i < |a + b| ==> IsDigit((a + b)[i])
  {
  }

  /** A non-negative field is `max(width, digit count)` characters long, is
      never cut short, and reads back as the number it shows. */
  lemma PaddedNonNegative(n: nat, width: nat)
    ensures var p := ZeroPadded(n, width);
      && |p| == (if |Decimal(n)| < width then width else |Decimal(n)|)
      && (forall i :: 0 <= i < |p| ==> IsDigit(p[i]))
      && DecimalValue(p) == n
  {
    var ds := Decimal(n);
    var z := Zeros(if |ds| < width then width - |ds| else 0);
    PaddedValue(n, z, ZeroPadded(n, width));
  }

  /** A negative field starts with the minus sign and reads back, after it,
      as the magnitude. */
  lemma PaddedNegative(n: int, width: nat)
    requires n < 0
    ensures var p := ZeroPadded(n, width);
      && |p| == (if |Decimal(-n)| + 1 < width then width else |Decimal(-n)| + 1)
      && p[0] == '-'
      && (forall i :: 1 <= i < |p| ==> IsDigit(p[i]))
      && DecimalValue(p[1..]) == -n
  {
    var ds := Decimal(-n);
    var z := Zeros(if |ds| + 1 < width then width - 1 - |ds| else 0);
    var body := z + ds;
    NegativeShape(n, width, z, ds);
    DigitsConcat(z, ds);
    SignedField(ZeroPadded(n, width), body);
    PaddedValue(-n, z, body);
  }

  /** Zero padding in front of the digits of `m` still reads as `m`. */
  lemma PaddedValue(m: nat, z: seq<char>, body: seq<char>)
    requires z == Zeros(|z|) && body == z + Decimal(m)
    ensures forall i :: 0 <= i < |body| ==> IsDigit(body[i])
    ensures DecimalValue(body) == m
  {
    DigitsConcat(z, Decimal(m));
    LeadingZeros(|z|, Decimal(m));
    DecimalRoundTrip(m);
  }

  /** A negative field is the sign, then the zero padding, then the digits. */
  lemma NegativeShape(n: int, width: nat, z: seq<char>, ds: seq<char>)
    requires n < 0 && ds == Decimal(-n)
    requires z == Zeros(if |ds| + 1 < width then width - 1 - |ds| else 0)
    ensures ZeroPadded(n, width) == "-" + (z + ds)
  {
    assert "-" + z + ds == "-" + (z + ds);
  }

  /** A sign followed by digits: everything after the sign is a digit. */
  lemma SignedField(p: seq<char>, body: seq<char>)
    requires p == "-" + body
    requires forall i :: 0 <= i < |body| ==> IsDigit(body[i])
    ensures |p| == |body| + 1 && p[0] == '-' && p[1..] == body
    ensures forall i :: 1 <= i < |p| ==> IsDigit(p[i])
  {
    assert p[1..] == body;
    forall i | 1 <= i < |p|
      ensures IsDigit(p[i])
    {
      assert p[i] == body[i - 1];
    }
  }

  /** For scores of at most six digits the label is 32 characters long and
      the two six-character fields read back as the frame counter and the
      high score. */
  lemma LabelFields(fc: int, highScore: int)
    requires 0 <= fc < 1000000 && 0 <= highScore < 1000000
    ensures var l := Label(fc, highScore);
      && |l| == 32
      && l[..7] == "Score: " && l[13..26] == "   Hi-Score: "
      && (forall i :: 7 <= i < 13 || 26 <= i < 32 ==> IsDigit(l[i]))
      && DecimalValue(l[7..13]) == fc
      && DecimalValue(l[26..32]) == highScore
  {
    DigitsOfSmall(fc);
    DigitsOfSmall(highScore);
    PaddedNonNegative(fc, 6);
    PaddedNonNegative(highScore, 6);
    var l := Label(fc, highScore);
    assert l[7..13] == ZeroPadded(fc, 6);
    assert l[26..32] == ZeroPadded(highScore, 6);
  }

  /** A number below 10^6 has at most six digits. */
  lemma {:induction false} DigitsOfSmall(n: nat)
    requires n < 1000000
    ensures |Decimal(n)| <= 6
  {
    if n >= 10 {
      DigitsBound(n / 10, 100000);
    }
  }

  lemma {:induction false} DigitsBound(n: nat, bound: nat)
    requires n < bound && bound in {10, 100, 1000, 10000, 100000}
    decreases bound
    ensures |Decimal(n)| <= if bound == 10 then 1 else if bound == 100 then 2 else if bound == 1000 then 3 else if bound == 10000 then 4 else 5
  {
    if n >= 10 {
      DigitsBound(n / 10, bound / 10);
    }
  }

  /** The overlay object: it has no state, and its `update`, `switch_theme`
      and `reset` do nothing. */
  class Score {
    constructor ()
    {
    }

    method Update(s: GameState)
      ensures unchanged(this)
    {
    }

    method SwitchTheme(t: Theme)
      ensures unchanged(this)
    {
    }

    method Reset()
      ensures unchanged(this)
    {
    }
  }
}
