/**
 * Text primitives the bot's formatting relies on: Rust's decimal rendering of
 * unsigned integers (`{}`), left padding with zeros (`{:0>w}` and `{:02}`),
 * `join` on a vector of strings, `str::replace("*", "\\*")` and `starts_with`.
 */
module Text {

  predicate IsDigit(c: char) {
    '0' <= c <= '9'
  }

  predicate AllDigits(s: string) {
    forall i :: 0 <= i < |s| ==> IsDigit(s[i])
  }

  predicate StartsWith(s: string, prefix: string) {
    |prefix| <= |s| && s[..|prefix|] == prefix
  }

  predicate EndsWith(s: string, suffix: string) {
    |suffix| <= |s| && s[|s| - |suffix|..] == suffix
  }

  /** A text built from two parts starts with the first and ends with the second. */
  lemma Halves(a: string, b: string)
    ensures StartsWith(a + b, a) && EndsWith(a + b, b)
  {
    assert (a + b)[..|a|] == a;
    assert (a + b)[|a + b| - |b|..] == b;
  }

  /** Text put in front keeps what a text ends with. */
  lemma EndsWithPrefixed(a: string, s: string, t: string)
    requires EndsWith(s, t)
    ensures EndsWith(a + s, t)
  {
    assert (a + s)[|a + s| - |t|..] == s[|s| - |t|..];
  }

  /** A text ending in `b`, `c`, `d` written one after another ends with those three. */
  lemma EndsWithThree(a: string, b: string, c: string, d: string)
    ensures EndsWith(a + b + c + d, b + c + d)
  {
    assert a + b + c + d == a + (b + c + d);
    Halves(a, b + c + d);
  }

  /** A text built from three parts starts with the first and ends with the last. */
  lemma Affixes(a: string, b: string, c: string)
    ensures StartsWith(a + b + c, a) && EndsWith(a + b + c, c)
  {
    assert (a + b + c)[..|a|] == a;
    assert (a + b + c)[|a + b + c| - |c|..] == c;
  }

  /** Every asterisk of `s` has a backslash right before it. */
  predicate StarsEscaped(s: string) {
    forall i :: 0 <= i < |s| && s[i] == '*' ==> i > 0 && s[i - 1] == '\\'
  }

  function DigitChar(d: nat): (c: char)
    requires d < 10
    ensures IsDigit(c)
  {
    (('0' as int) + d) as char
  }

  function DigitValue(c: char): (d: nat)
    requires IsDigit(c)
    ensures d < 10
  {
    (c as int) - ('0' as int)
  }

  /** The decimal rendering of `n`, most significant digit first, no leading zeros. */
  function NatToString(n: nat): (s: string)
    ensures 1 <= |s|
    decreases n
  {
    if n < 10 then [DigitChar(n)] else NatToString(n / 10) + [DigitChar(n % 10)]
  }

  /** The rendering consists of decimal digits only. */
  lemma {:induction false} NatToStringDigits(n: nat)
    ensures AllDigits(NatToString(n))
    decreases n
  {
    if n >= 10 {
      NatToStringDigits(n / 10);
      var s := NatToString(n);
      assert s == NatToString(n / 10) + [DigitChar(n % 10)];
      assert forall i :: 0 <= i < |s| - 1 ==> s[i] == NatToString(n / 10)[i];
    }
  }

  /** Reads a string of decimal digits back as a number (leading zeros allowed). */
  function ParseNat(s: string): nat
    requires AllDigits(s)
    decreases |s|
  {
    if s == [] then 0 else ParseNat(s[..|s| - 1]) * 10 + DigitValue(s[|s| - 1])
  }

  /** `k` copies of the character '0'. */
  function Zeros(k: nat): (z: string)
    ensures |z| == k
  {
    if k == 0 then [] else Zeros(k - 1) + ['0']
  }

  lemma {:induction false} ZerosAreZeros(k: nat)
    ensures forall i :: 0 <= i < k ==> Zeros(k)[i] == '0'
    ensures AllDigits(Zeros(k))
    decreases k
  {
    if k > 0 {
      ZerosAreZeros(k - 1);
      assert forall i :: 0 <= i < k - 1 ==> Zeros(k)[i] == Zeros(k - 1)[i];
    }
  }

  /** Rust's `{:0>width}`: pads on the left with zeros up to a minimum width. */
  function PadLeft(s: string, width: nat): (r: string)
    ensures |r| == if |s| >= width then |s| else width
  {
    if |s| >= width then s else Zeros(width - |s|) + s
  }

  /** The padded text is the original behind zeros only, and stays decimal when the original is. */
  lemma PadLeftShape(s: string, width: nat)
    ensures var r := PadLeft(s, width);
            && |s| <= |r| && r[|r| - |s|..] == s
            && (forall i :: 0 <= i < |r| - |s| ==> r[i] == '0')
            && (AllDigits(s) ==> AllDigits(r))
  {
    var r := PadLeft(s, width);
    if |s| < width {
      ZerosAreZeros(width - |s|);
      assert r[|r| - |s|..] == s;
      forall i | 0 <= i < |r| - |s|
        ensures r[i] == '0'
      {
        assert r[i] == Zeros(width - |s|)[i];
      }
    }
  }

  /** `{:02}` / `{:0>2}` applied to an unsigned number. */
  function Pad2(n: nat): string {
    PadLeft(NatToString(n), 2)
  }

  /** `lines.join(sep)`. */
  function Join(lines: seq<string>, sep: string): string
    decreases |lines|
  {
    if |lines| == 0 then ""
    else if |lines| == 1 then lines[0]
    else lines[0] + sep + Join(lines[1..], sep)
  }

  /** `s.replace("*", "\\*")`: every asterisk gets a backslash in front of it. */
  function EscapeStars(s: string): (r: string)
    ensures |r| >= |s|
    decreases |s|
  {
    if s == [] then []
    else if s[0] == '*' then ['\\', '*'] + EscapeStars(s[1..])
    else [s[0]] + EscapeStars(s[1..])
  }

  /** The inverse of `EscapeStars`: each `\*` becomes `*` again. */
  function UnescapeStars(s: string): string
    decreases |s|
  {
    if s == [] then []
    else if |s| >= 2 && s[0] == '\\' && s[1] == '*' then ['*'] + UnescapeStars(s[2..])
    else [s[0]] + UnescapeStars(s[1..])
  }

  /** The number of decimal digits of `n` is 1 below ten, 2 below a hundred, more above. */
  lemma {:induction false} NatToStringLength(n: nat)
    ensures (|NatToString(n)| == 1) == (n < 10)
    ensures 10 <= n < 100 ==> |NatToString(n)| == 2
    ensures n >= 100 ==> |NatToString(n)| >= 3
    decreases n
  {
    if n >= 10 {
      NatToStringLength(n / 10);
    }
  }

  /** Rendering then parsing gives the number back. */
  lemma {:induction false} ParseNatToString(n: nat)
    ensures AllDigits(NatToString(n))
    ensures ParseNat(NatToString(n)) == n
    decreases n
  {
    var s := NatToString(n);
    NatToStringDigits(n);
    if n >= 10 {
      ParseNatToString(n / 10);
      assert s[..|s| - 1] == NatToString(n / 10);
    } else {
      assert s[..|s| - 1] == [];
    }
  }

  /** Leading zeros do not change the parsed value. */
  lemma {:induction false} ParseNatLeadingZeros(k: nat, s: string)
    requires AllDigits(s)
    ensures AllDigits(Zeros(k) + s)
    ensures ParseNat(Zeros(k) + s) == ParseNat(s)
    decreases |s|, k
  {
    var t := Zeros(k) + s;
    ZerosAreZeros(k);
    if s == [] {
      assert t == Zeros(k);
      if k > 0 {
        assert t[..|t| - 1] == Zeros(k - 1);
        ParseNatLeadingZeros(k - 1, []);
        assert Zeros(k - 1) + [] == Zeros(k - 1);
      }
    } else {
      assert t[..|t| - 1] == Zeros(k) + s[..|s| - 1];
      ParseNatLeadingZeros(k, s[..|s| - 1]);
    }
  }

  /** A zero-padded number still parses to itself. */
  lemma ParsePadLeft(n: nat, width: nat)
    ensures AllDigits(PadLeft(NatToString(n), width))
    ensures ParseNat(PadLeft(NatToString(n), width)) == n
  {
    var s := NatToString(n);
    ParseNatToString(n);
    PadLeftShape(s, width);
    if |s| < width {
      ParseNatLeadingZeros(width - |s|, s);
    }
  }

  /** Escaping leaves no asterisk without a backslash right before it. */
  lemma {:induction false} EscapeStarsEscapes(s: string)
    ensures StarsEscaped(EscapeStars(s))
    decreases |s|
  {
    if s != [] {
      EscapeStarsEscapes(s[1..]);
      var rest := EscapeStars(s[1..]);
      var r := EscapeStars(s);
      var k := |r| - |rest|;
      assert r[k..] == rest;
      forall i | 0 <= i < |r| && r[i] == '*'
        ensures i > 0 && r[i - 1] == '\\'
      {
        if i >= k {
          assert r[i] == rest[i - k];
          if i - k > 0 {
            assert r[i - 1] == rest[i - k - 1];
          }
        }
      }
    }
  }

  /** An escaped string never begins with a bare asterisk. */
  lemma EscapeStarsHead(s: string)
    ensures EscapeStars(s) != [] ==> EscapeStars(s)[0] != '*'
  {
  }

  /** Escaping loses nothing: the rendered text reads as the original. */
  lemma {:induction false} UnescapeEscapeStars(s: string)
    ensures UnescapeStars(EscapeStars(s)) == s
    decreases |s|
  {
    if s != [] {
      UnescapeEscapeStars(s[1..]);
      var rest := EscapeStars(s[1..]);
      EscapeStarsHead(s[1..]);
      if s[0] == '*' {
        assert EscapeStars(s) == ['\\', '*'] + rest;
        assert (['\\', '*'] + rest)[2..] == rest;
      } else {
        assert EscapeStars(s) == [s[0]] + rest;
        assert ([s[0]] + rest)[1..] == rest;
      }
    }
  }
}
