/**
 * Column-letter encoding (googlesheets/utils.go): a 1-based column index is
 * written in bijective base 26, A..Z, AA..AZ, BA.., with no digit for zero.
 */
module Utils {

  predicate IsUpper(c: char) { 'A' <= c <= 'Z' }

  predicate AllUpper(s: string) {
    forall k :: 0 <= k < |s| ==> IsUpper(s[k])
  }

  /** The letter at 0-based alphabet position k: the rune 'A' + k. */
  function Letter(k: int): (c: char)
    requires 0 <= k < 26
    ensures IsUpper(c)
  {
    (('A' as int) + k) as char
  }

  /**
   * intToLetters: decrement the index, emit the letters of the quotient by 26
   * when it is positive, then the letter of the remainder.  The index is
   * non-negative after the decrement, so truncating and Euclidean division
   * agree.  For an index of 0 or less the source yields a rune below 'A';
   * callers always pass a positive index.
   */
  function IntToLetters(colIndex: int): (letter: string)
    requires colIndex >= 1
    ensures |letter| > 0 && AllUpper(letter)
  {
    var c := colIndex - 1;
    if c / 26 > 0 then IntToLetters(c / 26) + [Letter(c % 26)]
    else [Letter(c)]
  }

  /** The bijective base-26 reading of a string of capitals: the decoder. */
  function LettersToInt(s: string): (n: int)
    requires AllUpper(s)
    ensures n >= 0
    ensures |s| > 0 ==> n >= 1
  {
    if s == [] then 0
    else 26 * LettersToInt(s[..|s| - 1]) + ((s[|s| - 1] as int) - ('A' as int) + 1)
  }

  /** The values named in the source's doc comment, and the boundaries. */
  lemma IntToLettersExamples()
    ensures IntToLetters(1) == "A" && IntToLetters(2) == "B"
    ensures IntToLetters(26) == "Z" && IntToLetters(27) == "AA"
    ensures IntToLetters(52) == "AZ" && IntToLetters(53) == "BA"
    ensures IntToLetters(55) == "BC"
    ensures IntToLetters(702) == "ZZ" && IntToLetters(703) == "AAA"
  {
  }

  /** How many columns have names of at most k letters: 26 + 26^2 + ... + 26^k. */
  function Span(k: nat): nat {
    if k == 0 then 0 else 26 + 26 * Span(k - 1)
  }

  /**
   * The name of column n has at most k letters exactly when n is among the
   * first Span(k) columns: A..Z take one letter, AA..ZZ two, and so on.
   */
  lemma {:induction false} LettersLength(n: int, k: nat)
    requires n >= 1 && k >= 1
    ensures |IntToLetters(n)| <= k <==> n <= Span(k)
  {
    var c := n - 1;
    if c / 26 > 0 {
      assert |IntToLetters(n)| == |IntToLetters(c / 26)| + 1;
      if k >= 2 {
        LettersLength(c / 26, k - 1);
        assert c == 26 * (c / 26) + c % 26;
        assert c / 26 <= Span(k - 1) <==> n <= Span(k);
      }
    }
  }

  /** Decoding the letters of a column index gives the index back. */
  lemma {:induction false} DecodeEncode(n: int)
    requires n >= 1
    ensures LettersToInt(IntToLetters(n)) == n
  {
    var c := n - 1;
    var s := IntToLetters(n);
    if c / 26 > 0 {
      DecodeEncode(c / 26);
      assert s[..|s| - 1] == IntToLetters(c / 26);
      assert s[|s| - 1] == Letter(c % 26);
    } else {
      assert s[..|s| - 1] == [];
    }
  }

  /** Every non-empty string of capitals is the encoding of its decoding. */
  lemma {:induction false} EncodeDecode(s: string)
    requires |s| > 0 && AllUpper(s)
    ensures IntToLetters(LettersToInt(s)) == s
  {
    var prefix := s[..|s| - 1];
    var d := (s[|s| - 1] as int) - ('A' as int);
    assert 0 <= d < 26;
    var n := LettersToInt(s);
    assert n == 26 * LettersToInt(prefix) + d + 1;
    assert (n - 1) / 26 == LettersToInt(prefix) && (n - 1) % 26 == d;
    if prefix == [] {
      assert IntToLetters(n) == [Letter(d)];
    } else {
      EncodeDecode(prefix);
      assert IntToLetters(n) == prefix + [Letter(d)];
    }
    assert Letter(d) == s[|s| - 1];
    assert s == prefix + [s[|s| - 1]];
  }

  /** Distinct column indices get distinct letters. */
  lemma IntToLettersInjective(m: int, n: int)
    requires m >= 1 && n >= 1
    requires IntToLetters(m) == IntToLetters(n)
    ensures m == n
  {
    DecodeEncode(m);
    DecodeEncode(n);
  }
}
