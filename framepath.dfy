/** The output file name of a frame: sprintf with "images/%s%05d.tif". */
module FramePath {

  /** The character of decimal digit d. */
  function DigitChar(d: nat): (c: char)
    requires d < 10
    ensures '0' <= c <= '9' && c as int - '0' as int == d
  {
    ('0' as int + d) as char
  }

  predicate IsDigits(s: string)
  {
    forall k :: 0 <= k < |s| ==> '0' <= s[k] <= '9'
  }

  /** %d of a non-negative value: its decimal digits, no leading zeros. */
  function Decimal(n: nat): string
  {
    if n < 10 then [DigitChar(n)] else Decimal(n / 10) + [DigitChar(n % 10)]
  }

  lemma {:induction false} DecimalDigits(n: nat)
    ensures |Decimal(n)| >= 1 && IsDigits(Decimal(n))
  {
    if n >= 10 {
      DecimalDigits(n / 10);
    }
  }

  function Pow10(k: nat): nat
  {
    if k == 0 then 1 else 10 * Pow10(k - 1)
  }

  /** A number below 10^k has at most k decimal digits. */
  lemma {:induction false} DecimalLength(n: nat, k: nat)
    requires k >= 1 && n < Pow10(k)
    ensures |Decimal(n)| <= k
  {
    if n >= 10 {
      DecimalLength(n / 10, k - 1);
    }
  }

  lemma DecimalFits(n: nat)
    ensures n < 100000 ==> |Decimal(n)| <= 5
    ensures n < 10000 ==> |Decimal(n)| <= 4
  {
    assert Pow10(4) == 10000 && Pow10(5) == 100000;
    if n < 10000 {
      DecimalLength(n, 4);
    } else if n < 100000 {
      DecimalLength(n, 5);
    }
  }

  /** The last k decimal digits of n, most significant first, zeros included. */
  function Digits(n: nat, k: nat): (s: string)
    ensures |s| == k
  {
    if k == 0 then [] else Digits(n / 10, k - 1) + [DigitChar(n % 10)]
  }

  function Zeros(count: nat): string
  {
    if count == 0 then [] else Zeros(count - 1) + ['0']
  }

  lemma {:induction false} ZerosAreZeros(count: nat)
    ensures |Zeros(count)| == count && IsDigits(Zeros(count))
    ensures forall k :: 0 <= k < count ==> Zeros(count)[k] == '0'
  {
    if count > 0 {
      ZerosAreZeros(count - 1);
    }
  }

  /** Left-pad s with '0' up to width characters; longer strings are kept whole. */
  function PadZeros(s: string, width: nat): string
  {
    if |s| >= width then s else Zeros(width - |s|) + s
  }

  lemma {:induction false} DigitsOfZero(k: nat)
    ensures Digits(0, k) == Zeros(k)
  {
    if k > 0 {
      DigitsOfZero(k - 1);
    }
  }

  /** Zero-padding a number below 10^k to width k gives its last k digits. */
  lemma {:induction false} PadZerosDigits(n: nat, k: nat)
    requires k >= 1 && n < Pow10(k)
    ensures PadZeros(Decimal(n), k) == Digits(n, k)
  {
    DecimalLength(n, k);
    if n < 10 {
      DigitsOfZero(k - 1);
    } else {
      var d := Decimal(n / 10);
      PadZerosDigits(n / 10, k - 1);
      DecimalLength(n / 10, k - 1);
      ZerosAreZeros(k - 1 - |d|);
      assert Decimal(n) == d + [DigitChar(n % 10)];
      assert Zeros(k - |Decimal(n)|) + Decimal(n) == (Zeros(k - 1 - |d|) + d) + [DigitChar(n % 10)];
    }
  }

  /** printf's %05d: a field of at least five characters, padded with zeros
      after the sign. */
  function Format05d(n: int): (s: string)
    ensures |s| >= 5
    ensures n >= 0 ==> IsDigits(s)
    ensures n < 0 ==> s[0] == '-' && IsDigits(s[1..])
    ensures -10000 < n < 100000 ==> |s| == 5
  {
    var magnitude: nat := if n >= 0 then n else -n;
    DecimalDigits(magnitude);
    var d := Decimal(magnitude);
    DecimalFits(magnitude);
    ZerosAreZeros(if |d| >= 5 then 0 else 5 - |d|);
    ZerosAreZeros(if |d| >= 4 then 0 else 4 - |d|);
    if n >= 0 then PadZeros(d, 5) else "-" + PadZeros(d, 4)
  }

  /** The display path doFrame hands to the renderer for frame fNum. */
  function DisplayPath(prefix: string, fNum: int): string
  {
    "images/" + prefix + Format05d(fNum) + ".tif"
  }

  /** A display path is "images/", the prefix, at least five characters of
      frame number, and ".tif". */
  lemma DisplayPathShape(prefix: string, fNum: int)
    ensures var p := DisplayPath(prefix, fNum);
            && |p| >= 16 + |prefix|
            && p[..7] == "images/" && p[7..7 + |prefix|] == prefix
            && p[7 + |prefix|..|p| - 4] == Format05d(fNum)
            && p[|p| - 4..] == ".tif"
  {
    var head, num := "images/" + prefix, Format05d(fNum);
    var p := head + num + ".tif";
    assert p[..|head|] == head && p[|head|..|p| - 4] == num && p[|p| - 4..] == ".tif";
    assert head[..7] == "images/" && head[7..] == prefix;
  }

  /** The value of a string of decimal digits, leading zeros allowed. */
  function ParseDecimal(s: string): nat
    requires IsDigits(s)
  {
    if s == [] then 0
    else ParseDecimal(s[..|s| - 1]) * 10 + (s[|s| - 1] as int - '0' as int)
  }

  lemma {:induction false} ParseDecimalOfDecimal(n: nat)
    ensures IsDigits(Decimal(n)) && ParseDecimal(Decimal(n)) == n
  {
    DecimalDigits(n);
    var s := Decimal(n);
    if n >= 10 {
      ParseDecimalOfDecimal(n / 10);
      assert s[..|s| - 1] == Decimal(n / 10);
    }
  }

  lemma {:induction false} ParseDecimalSkipsZeros(count: nat, s: string)
    requires IsDigits(s)
    ensures IsDigits(Zeros(count) + s)
    ensures ParseDecimal(Zeros(count) + s) == ParseDecimal(s)
  {
    ZerosAreZeros(count);
    var z := Zeros(count) + s;
    if s == [] {
      assert z == Zeros(count);
      if count > 0 {
        assert z[..|z| - 1] == Zeros(count - 1) + [];
        ParseDecimalSkipsZeros(count - 1, []);
      }
    } else {
      assert z[..|z| - 1] == Zeros(count) + s[..|s| - 1];
      ParseDecimalSkipsZeros(count, s[..|s| - 1]);
    }
  }

  /** Reading the digits back gives the frame number: %05d loses nothing. */
  lemma Format05dRoundTrip(n: nat)
    ensures ParseDecimal(Format05d(n)) == n
  {
    var d := Decimal(n);
    ParseDecimalOfDecimal(n);
    if |d| < 5 {
      ParseDecimalSkipsZeros(5 - |d|, d);
    }
  }

  /** A number that fits the field is written as exactly its five last digits. */
  lemma Format05dDigits(n: nat)
    requires n < 100000
    ensures Format05d(n) == [DigitChar(n / 10000), DigitChar(n / 1000 % 10), DigitChar(n / 100 % 10),
                             DigitChar(n / 10 % 10), DigitChar(n % 10)]
  {
    assert Pow10(5) == 100000;
    PadZerosDigits(n, 5);
    var n1, n2, n3, n4 := n / 10, n / 100, n / 1000, n / 10000;
    assert n1 / 10 == n2 && n2 / 10 == n3 && n3 / 10 == n4 && n4 / 10 == 0;
    assert n4 % 10 == n4;
    assert Digits(n4, 1) == [DigitChar(n4)];
    assert Digits(n3, 2) == Digits(n4, 1) + [DigitChar(n3 % 10)];
    assert Digits(n2, 3) == Digits(n3, 2) + [DigitChar(n2 % 10)];
    assert Digits(n1, 4) == Digits(n2, 3) + [DigitChar(n1 % 10)];
    assert Digits(n, 5) == Digits(n1, 4) + [DigitChar(n % 10)];
  }

  /** The file of frame 19 with prefix "out". */
  lemma DisplayPathExample()
    ensures DisplayPath("out", 19) == "images/out00019.tif"
  {
    Format05dDigits(19);
  }

  /** Distinct frames (numbered from 0, as the program does) get distinct files. */
  lemma DisplayPathInjective(prefix: string, a: nat, b: nat)
    requires DisplayPath(prefix, a) == DisplayPath(prefix, b)
    ensures a == b
  {
    var pa, pb := DisplayPath(prefix, a), DisplayPath(prefix, b);
    assert Format05d(a) == Format05d(b) by {
      DisplayPathShape(prefix, a);
      DisplayPathShape(prefix, b);
      assert pa[7 + |prefix|..|pa| - 4] == pb[7 + |prefix|..|pb| - 4];
    }
    Format05dRoundTrip(a);
    Format05dRoundTrip(b);
  }
}
