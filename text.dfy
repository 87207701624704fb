/** String operations the views perform: rendering a number in decimal (template
    literals), ASCII lower-casing (`toLowerCase` on the difficulty keywords) and
    the `substring(0, L) + "..."` truncation of descriptions. */
module Text {

  predicate IsDigit(c: char)
  {
    '0' <= c <= '9'
  }

  predicate AllDigits(s: string)
  {
    forall i :: 0 <= i < |s| ==> IsDigit(s[i])
  }

  function DigitChar(d: nat): (c: char)
    requires d < 10
    ensures IsDigit(c)
  {
    ('0' as int + d) as char
  }

  function DigitValue(c: char): (d: nat)
    requires IsDigit(c)
    ensures d < 10
  {
    c as int - '0' as int
  }

  /** The decimal text of `n`, as `${n}` produces it: at least one digit, and no
      leading zero unless `n` is zero. */
  function Decimal(n: nat): (s: string)
    ensures |s| >= 1 && AllDigits(s)
    ensures s[0] == '0' <==> n == 0
    ensures Canonical(s)
    decreases n
  {
    if n < 10 then [DigitChar(n)] else Decimal(n / 10) + [DigitChar(n % 10)]
  }

  /** The number a string of digits denotes (the reading inverse to Decimal). */
  function DigitsValue(s: string): nat
    requires AllDigits(s)
  {
    if s == [] then 0 else 10 * DigitsValue(s[..|s| - 1]) + DigitValue(s[|s| - 1])
  }

  /** Reading back the decimal text gives the number again. */
  lemma {:induction false} DecimalRoundTrip(n: nat)
    ensures DigitsValue(Decimal(n)) == n
    decreases n
  {
    if n >= 10 {
      DecimalRoundTrip(n / 10);
      var s := Decimal(n);
      assert s[..|s| - 1] == Decimal(n / 10);
      assert DigitValue(DigitChar(n % 10)) == n % 10;
    } else {
      assert DigitValue(DigitChar(n)) == n;
    }
  }

  /** `s.startsWith(prefix)`. */
  predicate StartsWith(s: string, prefix: string)
  {
    |prefix| <= |s| && s[..|prefix|] == prefix
  }

  /** `s.endsWith(suffix)`. */
  predicate EndsWith(s: string, suffix: string)
  {
    |suffix| <= |s| && s[|s| - |suffix|..] == suffix
  }

  /** A digit string in the form `${n}` writes: non-empty, and starting with
      '0' only when it is "0" itself. */
  predicate Canonical(s: string)
  {
    |s| >= 1 && AllDigits(s) && (s[0] == '0' ==> |s| == 1)
  }

  /** Every canonical digit string is the decimal text of the number it
      denotes, so such a string is fixed by its value. */
  lemma {:induction false} CanonicalRoundTrip(s: string)
    requires Canonical(s)
    ensures Decimal(DigitsValue(s)) == s
    decreases |s|
  {
    var last := s[|s| - 1];
    assert DigitChar(DigitValue(last)) == last;
    if |s| > 1 {
      var init := s[..|s| - 1];
      assert init[0] == s[0];
      CanonicalRoundTrip(init);
      var d := DigitsValue(init);
      assert d != 0;
      var v := DigitsValue(s);
      assert v == 10 * d + DigitValue(last);
      assert v / 10 == d && v % 10 == DigitValue(last);
      assert init + [last] == s;
    }
  }

  /** Two canonical digit strings with the same value are the same string. */
  lemma CanonicalDigitsEqual(s: string, t: string)
    requires Canonical(s) && Canonical(t)
    requires DigitsValue(s) == DigitsValue(t)
    ensures s == t
  {
    CanonicalRoundTrip(s);
    CanonicalRoundTrip(t);
  }

  /** Distinct numbers have distinct decimal texts. */
  lemma DecimalInjective(m: nat, n: nat)
    requires Decimal(m) == Decimal(n)
    ensures m == n
  {
    DecimalRoundTrip(m);
    DecimalRoundTrip(n);
  }

  /** `toLowerCase` on one character, for the ASCII letters. */
  function LowerChar(c: char): (d: char)
    ensures 'A' <= c <= 'Z' ==> 'a' <= d <= 'z' && d as int - c as int == 32
    ensures !('A' <= c <= 'Z') ==> d == c
  {
    if 'A' <= c <= 'Z' then (c as int + 32) as char else c
  }

  function Lower(s: string): (r: string)
    ensures |r| == |s|
    ensures forall i :: 0 <= i < |s| ==> r[i] == LowerChar(s[i])
  {
    if s == [] then [] else [LowerChar(s[0])] + Lower(s[1..])
  }

  /** Two strings that differ at most in the case of their letters. */
  predicate EqualsIgnoringCase(s: string, t: string)
  {
    |s| == |t| && forall i :: 0 <= i < |s| ==> LowerChar(s[i]) == LowerChar(t[i])
  }

  /** For a word already in lower case, lower-casing `s` yields the word exactly
      when `s` spells the word up to case. */
  lemma LowerEqualsWord(s: string, word: string)
    requires Lower(word) == word
    ensures Lower(s) == word <==> EqualsIgnoringCase(s, word)
  {
    if EqualsIgnoringCase(s, word) {
      forall i | 0 <= i < |s|
        ensures Lower(s)[i] == word[i]
      {
        assert Lower(word)[i] == word[i];
      }
    }
    if Lower(s) == word {
      forall i | 0 <= i < |s|
        ensures LowerChar(s[i]) == LowerChar(word[i])
      {
        assert Lower(word)[i] == word[i];
      }
    }
  }

  /** `s.length > limit ? s.substring(0, limit) + "..." : s`. */
  function Truncate(s: string, limit: nat): (r: string)
    ensures |s| <= limit ==> r == s
    ensures |s| > limit ==> |r| == limit + 3 && r[..limit] == s[..limit] && r[limit..] == "..."
    ensures |r| <= limit + 3
  {
    if |s| > limit then s[..limit] + "..." else s
  }

  /** Truncating to a limit and then to a smaller or equal one is the same as
      truncating to the smaller one at once; with equal limits, truncation is
      idempotent. The card (limit 100) and table (limit 50) excerpts of one
      description therefore agree on their common prefix. */
  lemma {:induction false} TruncateTwice(s: string, wide: nat, narrow: nat)
    requires narrow <= wide
    ensures Truncate(Truncate(s, wide), narrow) == Truncate(s, narrow)
  {
    if |s| > wide {
      var r := Truncate(s, wide);
      assert r[..narrow] == s[..narrow] by {
        assert r[..narrow] == r[..wide][..narrow];
        assert s[..narrow] == s[..wide][..narrow];
      }
    }
  }
}
