/**
 * The string operations the SDP utilities rely on, with the semantics of the
 * Kotlin standard-library calls they use: splitting on one character
 * (`split(' ')`), splitting on runs of whitespace (`split(Regex("\\s+"))`),
 * prefix tests (`Regex("^low")`), decimal parsing (`toIntOrNull`,
 * `toLongOrNull`, `toInt`, `toLong`) and decimal formatting (string templates).
 */
module Text {
  import opened Wrappers

  /** The characters matched by the regular-expression class `\s`. */
  predicate IsWhitespace(c: char)
  {
    c == ' ' || c == '\t' || c == '\n' || c == '\r' || c as int == 11 || c as int == 12
  }

  predicate NoWhitespace(s: string)
  {
    forall i :: 0 <= i < |s| ==> !IsWhitespace(s[i])
  }

  /** What `Regex("^" + prefix).containsMatchIn(s)` decides for a literal prefix. */
  predicate StartsWith(s: string, prefix: string)
  {
    |prefix| <= |s| && s[..|prefix|] == prefix
  }

  // ---------------------------------------------------------------------------
  // split(' '): every occurrence of the separator ends a token; empty tokens
  // are kept, so the result always has one token more than there are separators.

  function SplitOn(s: string, sep: char): (r: seq<string>)
    ensures |r| >= 1
  {
    if s == [] then [""]
    else
      var rest := SplitOn(s[1..], sep);
      if s[0] == sep then [""] + rest else [[s[0]] + rest[0]] + rest[1..]
  }

  /** The inverse of SplitOn: the tokens glued back together with the separator. */
  function Join(parts: seq<string>, sep: char): string
    requires |parts| >= 1
  {
    if |parts| == 1 then parts[0] else parts[0] + [sep] + Join(parts[1..], sep)
  }

  lemma {:induction false} JoinSplitOn(s: string, sep: char)
    ensures Join(SplitOn(s, sep), sep) == s
  {
    if s != [] {
      JoinSplitOn(s[1..], sep);
      var rest := SplitOn(s[1..], sep);
      if s[0] != sep && |rest| > 1 {
        assert Join(rest, sep) == rest[0] + [sep] + Join(rest[1..], sep);
        assert Join(SplitOn(s, sep), sep) == [s[0]] + rest[0] + [sep] + Join(rest[1..], sep);
      }
    }
  }

  lemma {:induction false} SplitOnTokensLackSeparator(s: string, sep: char)
    ensures forall t :: t in SplitOn(s, sep) ==> sep !in t
  {
    if s != [] {
      SplitOnTokensLackSeparator(s[1..], sep);
      var rest := SplitOn(s[1..], sep);
      if s[0] != sep {
        assert rest[0] in rest;
        assert forall t :: t in rest[1..] ==> t in rest;
      }
    }
  }

  lemma {:induction false} SplitOnWithoutSeparator(s: string, sep: char)
    requires sep !in s
    ensures SplitOn(s, sep) == [s]
  {
    if s != [] {
      assert s[0] != sep by { assert s[0] in s; }
      SplitOnWithoutSeparator(s[1..], sep);
      assert [s[0]] + s[1..] == s;
    }
  }

  /** The first separator in `a + [sep] + b` ends the first token. */
  lemma {:induction false} SplitOnFirstSeparator(a: string, sep: char, b: string)
    requires sep !in a
    ensures SplitOn(a + [sep] + b, sep) == [a] + SplitOn(b, sep)
  {
    if a == [] {
      assert a + [sep] + b == [sep] + b;
      assert ([sep] + b)[1..] == b;
    } else {
      assert (a + [sep] + b)[1..] == a[1..] + [sep] + b;
      SplitOnFirstSeparator(a[1..], sep, b);
      assert [a[0]] + a[1..] == a;
    }
  }

  // ---------------------------------------------------------------------------
  // split(Regex("\\s+")): every maximal run of whitespace separates two tokens.
  // Kotlin's Regex.split keeps a leading and a trailing empty token, so " 1 2"
  // has three tokens and "" has one.

  function DropWhitespace(s: string): (r: string)
    ensures |r| <= |s| && r == s[|s| - |r|..]
    ensures r == [] || !IsWhitespace(r[0])
  {
    if s != [] && IsWhitespace(s[0]) then DropWhitespace(s[1..]) else s
  }

  function SplitWhitespace(s: string): (r: seq<string>)
    ensures |r| >= 1
    decreases |s|
  {
    if s == [] then [""]
    else if IsWhitespace(s[0]) then [""] + SplitWhitespace(DropWhitespace(s[1..]))
    else
      var rest := SplitWhitespace(s[1..]);
      [[s[0]] + rest[0]] + rest[1..]
  }

  lemma {:induction false} SplitWhitespaceTokens(s: string)
    ensures forall t :: t in SplitWhitespace(s) ==> NoWhitespace(t)
    decreases |s|
  {
    if s != [] {
      if IsWhitespace(s[0]) {
        SplitWhitespaceTokens(DropWhitespace(s[1..]));
      } else {
        SplitWhitespaceTokens(s[1..]);
        var rest := SplitWhitespace(s[1..]);
        assert rest[0] in rest;
        assert forall t :: t in rest[1..] ==> t in rest;
        assert NoWhitespace([s[0]] + rest[0]);
      }
    }
  }

  lemma {:induction false} SplitWhitespaceWord(a: string)
    requires NoWhitespace(a)
    ensures SplitWhitespace(a) == [a]
  {
    if a != [] {
      SplitWhitespaceWord(a[1..]);
      assert [a[0]] + a[1..] == a;
    }
  }

  /** A single space after a word ends that word as the first token. */
  lemma {:induction false} SplitWhitespaceFirstSpace(a: string, b: string)
    requires NoWhitespace(a)
    requires b == [] || !IsWhitespace(b[0])
    ensures SplitWhitespace(a + " " + b) == [a] + SplitWhitespace(b)
  {
    if a == [] {
      assert a + " " + b == [' '] + b;
      assert ([' '] + b)[1..] == b;
    } else {
      assert (a + " " + b)[1..] == a[1..] + " " + b;
      SplitWhitespaceFirstSpace(a[1..], b);
      assert [a[0]] + a[1..] == a;
    }
  }

  /**
   * Splitting on whitespace runs agrees with splitting on single spaces when
   * the only whitespace is single spaces.
   */
  predicate SingleSpaced(s: string)
  {
    && (forall i :: 0 <= i < |s| && IsWhitespace(s[i]) ==> s[i] == ' ')
    && (forall i :: 0 <= i < |s| - 1 ==> !(s[i] == ' ' && s[i + 1] == ' '))
  }

  lemma {:induction false} SplitWhitespaceSingleSpaced(s: string)
    requires SingleSpaced(s)
    ensures SplitWhitespace(s) == SplitOn(s, ' ')
    decreases |s|
  {
    if s != [] {
      assert SingleSpaced(s[1..]) by {
        forall i | 0 <= i < |s[1..]| - 1 ensures !(s[1..][i] == ' ' && s[1..][i + 1] == ' ') {
          assert s[1..][i] == s[i + 1] && s[1..][i + 1] == s[i + 2];
        }
      }
      if IsWhitespace(s[0]) {
        assert s[1..] == [] || !IsWhitespace(s[1]);
        assert DropWhitespace(s[1..]) == s[1..];
      }
      SplitWhitespaceSingleSpaced(s[1..]);
    }
  }

  // ---------------------------------------------------------------------------
  // Decimal numbers.

  predicate IsDigit(c: char)
  {
    '0' <= c <= '9'
  }

  predicate AllDigits(s: string)
  {
    forall i :: 0 <= i < |s| ==> IsDigit(s[i])
  }

  function DigitChar(d: nat): char
    requires d < 10
  {
    ('0' as int + d) as char
  }

  /** The value of a string of decimal digits, most significant first. */
  function DigitsValue(s: string): nat
    requires AllDigits(s)
  {
    if s == [] then 0
    else 10 * DigitsValue(s[..|s| - 1]) + (s[|s| - 1] as int - '0' as int)
  }

  /**
   * `toIntOrNull()` / `toLongOrNull()` in radix 10: an optional leading `-`
   * or `+` followed by at least one decimal digit.
   */
  function ParseInt(s: string): Option<int>
  {
    if |s| >= 2 && (s[0] == '-' || s[0] == '+') then
      if AllDigits(s[1..]) then
        var v: int := DigitsValue(s[1..]);
        Some(if s[0] == '-' then -v else v)
      else None
    else if |s| >= 1 && AllDigits(s) then Some(DigitsValue(s))
    else None
  }

  function NatToString(n: nat): (s: string)
    ensures 1 <= |s| && AllDigits(s)
  {
    if n < 10 then [DigitChar(n)] else NatToString(n / 10) + [DigitChar(n % 10)]
  }

  /** The decimal text a string template such as "$ssrc" produces. */
  function IntToString(n: int): string
  {
    if n < 0 then "-" + NatToString(-n) else NatToString(n)
  }

  lemma {:induction false} DigitsValueNatToString(n: nat)
    ensures DigitsValue(NatToString(n)) == n
  {
    if n >= 10 {
      DigitsValueNatToString(n / 10);
      var s := NatToString(n);
      assert s[..|s| - 1] == NatToString(n / 10);
    }
  }

  /** Parsing undoes formatting. */
  lemma ParseIntToString(n: int)
    ensures ParseInt(IntToString(n)) == Some(n)
  {
    var s := IntToString(n);
    if n < 0 {
      assert s[1..] == NatToString(-n);
      DigitsValueNatToString(-n);
    } else {
      DigitsValueNatToString(n);
    }
  }

  lemma IntToStringNoWhitespace(n: int)
    ensures NoWhitespace(IntToString(n)) && IntToString(n) != []
  {
    var d := NatToString(if n < 0 then -n else n);
    assert forall i :: 0 <= i < |d| ==> IsDigit(d[i]);
  }
}
