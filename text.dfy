/**
 * The string operations the reply texts use: decimal rendering of counts
 * (a template literal's `${n}` on an integer), `Array.prototype.join`,
 * ASCII case mapping, and upper-casing a first letter.
 */
module Text {
  import opened Wrappers

  // ---------------------------------------------------------------------
  // Decimal numbers
  // ---------------------------------------------------------------------

  function DigitChar(d: nat): (c: char)
    requires d < 10
    ensures '0' <= c <= '9'
  {
    "0123456789"[d]
  }

  function DigitValue(c: char): (d: nat)
    requires '0' <= c <= '9'
    ensures d < 10 && DigitChar(d) == c
  {
    (c as int - '0' as int) as nat
  }

  predicate IsDigits(s: string)
  {
    |s| > 0 && forall k :: 0 <= k < |s| ==> '0' <= s[k] <= '9'
  }

  /** The decimal digits of `n`, most significant first, without leading zeros. */
  function NatToString(n: nat): (s: string)
    ensures IsDigits(s)
  {
    if n < 10 then [DigitChar(n)] else NatToString(n / 10) + [DigitChar(n % 10)]
  }

  /** How JavaScript renders an integer: a minus sign, then the digits of its magnitude. */
  function IntToString(n: int): (s: string)
    ensures |s| > 0
    ensures n >= 0 ==> IsDigits(s)
    ensures n < 0 ==> s[0] == '-' && IsDigits(s[1..])
  {
    if n < 0 then "-" + NatToString(-n) else NatToString(n)
  }

  /** Reading a string of decimal digits back. */
  function DigitsValue(s: string): nat
    requires IsDigits(s)
  {
    if |s| == 1 then DigitValue(s[0])
    else DigitsValue(s[..|s| - 1]) * 10 + DigitValue(s[|s| - 1])
  }

  /** Reading an optionally signed decimal integer back. */
  function ParseInt(s: string): Maybe<int>
  {
    if IsDigits(s) then Just(DigitsValue(s))
    else if |s| > 1 && s[0] == '-' && IsDigits(s[1..]) then Just(0 - DigitsValue(s[1..]) as int)
    else Nothing
  }

  lemma {:induction false} NatToStringRoundTrip(n: nat)
    ensures DigitsValue(NatToString(n)) == n
  {
    if n >= 10 {
      var s := NatToString(n);
      NatToStringRoundTrip(n / 10);
      assert s[..|s| - 1] == NatToString(n / 10);
    }
  }

  /** Rendering an integer loses nothing: it reads back as the same integer. */
  lemma IntToStringRoundTrip(n: int)
    ensures ParseInt(IntToString(n)) == Just(n)
  {
    if n < 0 {
      ParseNegativeInt(n);
    } else {
      ParseNatural(n);
    }
  }

  /** The digits of a natural number read back as that number. */
  lemma ParseNatural(n: nat)
    ensures ParseInt(IntToString(n)) == Just(n)
  {
    NatToStringRoundTrip(n);
  }

  /** A negative integer's rendering reads back as that integer. */
  lemma ParseNegativeInt(n: int)
    requires n < 0
    ensures ParseInt(IntToString(n)) == Just(n)
  {
    var m: nat := -n;
    assert IntToString(n) == "-" + NatToString(m);
    ParseNegative(m);
  }

  /** A minus sign before the digits of `m` reads back as `-m`. */
  lemma ParseNegative(m: nat)
    ensures ParseInt("-" + NatToString(m)) == Just(0 - m)
  {
    var digits := NatToString(m);
    var s := "-" + digits;
    NatToStringRoundTrip(m);
    assert s[1..] == digits;
    assert !IsDigits(s) by {
      assert s[0] == '-';
    }
  }

  // ---------------------------------------------------------------------
  // Joining and splitting
  // ---------------------------------------------------------------------

  /** `parts.join(sep)` for a one-character separator. */
  function Join(parts: seq<string>, sep: char): string
  {
    if |parts| == 0 then ""
    else if |parts| == 1 then parts[0]
    else parts[0] + [sep] + Join(parts[1..], sep)
  }

  /** `parts.join(sep)` for a separator of any length. */
  function JoinWith(parts: seq<string>, sep: string): string
  {
    if |parts| == 0 then ""
    else if |parts| == 1 then parts[0]
    else parts[0] + sep + JoinWith(parts[1..], sep)
  }

  /**
   * Joining with a newline followed by a prefix, after one leading prefix,
   * is joining the prefixed parts with a newline.
   */
  lemma {:induction false} JoinWithPrefix(parts: seq<string>, prefix: string)
    requires |parts| > 0
    ensures prefix + JoinWith(parts, "\n" + prefix)
            == Join(seq(|parts|, k requires 0 <= k < |parts| => prefix + parts[k]), '\n')
  {
    var prefixed := seq(|parts|, k requires 0 <= k < |parts| => prefix + parts[k]);
    if |parts| > 1 {
      var rest := parts[1..];
      JoinWithPrefix(rest, prefix);
      assert prefixed[1..] == seq(|rest|, k requires 0 <= k < |rest| => prefix + rest[k]);
      calc {
        prefix + JoinWith(parts, "\n" + prefix);
        prefix + parts[0] + "\n" + (prefix + JoinWith(rest, "\n" + prefix));
        prefixed[0] + ['\n'] + Join(prefixed[1..], '\n');
      }
    }
  }

  function IndexOf(s: string, c: char): (i: nat)
    requires c in s
    ensures i < |s| && s[i] == c && c !in s[..i]
  {
    if s[0] == c then 0 else 1 + IndexOf(s[1..], c)
  }

  /** The first occurrence is the one `IndexOf` finds. */
  lemma {:induction false} IndexOfFirst(s: string, c: char, j: nat)
    requires j < |s| && s[j] == c && c !in s[..j]
    ensures IndexOf(s, c) == j
  {
    if j > 0 {
      assert s[0] == s[..j][0];
      assert s[1..][..j - 1] == s[..j][1..];
      IndexOfFirst(s[1..], c, j - 1);
    }
  }

  /** `s.split(sep)`: the maximal separator-free pieces, in order. */
  function Split(s: string, sep: char): (r: seq<string>)
    ensures |r| > 0
    decreases |s|
  {
    if sep !in s then [s]
    else
      var i := IndexOf(s, sep);
      [s[..i]] + Split(s[i + 1..], sep)
  }

  /** Joining separator-free pieces can be undone by splitting. */
  lemma {:induction false} SplitJoin(parts: seq<string>, sep: char)
    requires |parts| > 0
    requires forall k :: 0 <= k < |parts| ==> sep !in parts[k]
    ensures Split(Join(parts, sep), sep) == parts
  {
    if |parts| > 1 {
      var rest := Join(parts[1..], sep);
      var s := parts[0] + [sep] + rest;
      assert s[..|parts[0]|] == parts[0];
      IndexOfFirst(s, sep, |parts[0]|);
      var i := IndexOf(s, sep);
      assert s[i + 1..] == rest;
      SplitJoin(parts[1..], sep);
    }
  }

  // ---------------------------------------------------------------------
  // ASCII case mapping
  // ---------------------------------------------------------------------

  function UpperChar(c: char): char
  {
    if 'a' <= c <= 'z' then (c as int - 32) as char else c
  }

  function LowerChar(c: char): char
  {
    if 'A' <= c <= 'Z' then (c as int + 32) as char else c
  }

  /** `toUpperCase`, on ASCII letters. */
  function ToUpper(s: string): (r: string)
    ensures |r| == |s| && forall k :: 0 <= k < |s| ==> r[k] == UpperChar(s[k])
  {
    seq(|s|, k requires 0 <= k < |s| => UpperChar(s[k]))
  }

  /** `toLowerCase`, on ASCII letters. */
  function ToLower(s: string): (r: string)
    ensures |r| == |s| && forall k :: 0 <= k < |s| ==> r[k] == LowerChar(s[k])
  {
    seq(|s|, k requires 0 <= k < |s| => LowerChar(s[k]))
  }

  /** Upper-casing leaves no lower-case ASCII letter and changes nothing else. */
  lemma ToUpperMeaning(s: string)
    ensures forall k :: 0 <= k < |s| ==> !('a' <= ToUpper(s)[k] <= 'z')
    ensures forall k :: 0 <= k < |s| && !('a' <= s[k] <= 'z') ==> ToUpper(s)[k] == s[k]
    ensures ToUpper(ToUpper(s)) == ToUpper(s)
  {
  }

  /**
   * Lower-casing leaves no upper-case ASCII letter, moves each upper-case
   * letter to its lower-case partner, changes nothing else, is idempotent,
   * and loses nothing upper-casing would keep.
   */
  lemma ToLowerMeaning(s: string)
    ensures forall k :: 0 <= k < |s| ==> !('A' <= ToLower(s)[k] <= 'Z')
    ensures forall k :: 0 <= k < |s| && 'A' <= s[k] <= 'Z' ==> ToLower(s)[k] as int == s[k] as int + 32
    ensures forall k :: 0 <= k < |s| && !('A' <= s[k] <= 'Z') ==> ToLower(s)[k] == s[k]
    ensures ToLower(ToLower(s)) == ToLower(s)
    ensures ToUpper(ToLower(s)) == ToUpper(s)
  {
  }

  /** `s.slice(0, 1).toUpperCase() + s.slice(1)`. */
  function UpperFirst(s: string): (r: string)
    ensures |r| == |s|
    ensures |s| > 0 ==> r[0] == UpperChar(s[0]) && r[1..] == s[1..]
  {
    ToUpper(s[..if |s| > 0 then 1 else 0]) + s[if |s| > 0 then 1 else 0..]
  }
}
