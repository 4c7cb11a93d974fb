/** String helpers of the normaliser: the line-break rewrite of `_get_text`
    and the decimal rendering of a numeric user id. */
module Text {

  const BrTag: string := "<br />"

  /** An occurrence of `<br />` starts at position `i` of `s`. */
  predicate BrAt(s: string, i: int) {
    0 <= i && i + |BrTag| <= |s| && s[i..i + |BrTag|] == BrTag
  }

  /** `s.replace('<br />', '\n')`: occurrences are replaced left to right,
      without overlap. */
  function ReplaceBr(s: string): (r: string)
    ensures |r| <= |s|
  {
    if |s| >= |BrTag| && s[..|BrTag|] == BrTag then "\n" + ReplaceBr(s[|BrTag|..])
    else if s == [] then []
    else [s[0]] + ReplaceBr(s[1..])
  }

  /** Output characters other than newlines are copied, not produced by the
      rewrite: a newline-free prefix of the output is a prefix of the input. */
  lemma {:induction false} NewlineFreePrefix(t: string, p: string)
    requires '\n' !in p
    ensures |p| <= |ReplaceBr(t)| && ReplaceBr(t)[..|p|] == p ==> |p| <= |t| && t[..|p|] == p
  {
    if p == [] {
    } else if |t| >= |BrTag| && t[..|BrTag|] == BrTag {
      assert ReplaceBr(t)[0] == '\n';
    } else if t != [] {
      var rest := ReplaceBr(t[1..]);
      assert ReplaceBr(t) == [t[0]] + rest;
      NewlineFreePrefix(t[1..], p[1..]);
      if |p| <= |ReplaceBr(t)| {
        assert ReplaceBr(t)[..|p|] == [t[0]] + rest[..|p| - 1];
      }
      if |p| <= |t| {
        assert t[..|p|] == [t[0]] + t[1..][..|p| - 1];
      }
    }
  }

  /** No `<br />` is left after the rewrite, not even one formed across a
      replaced tag. */
  lemma {:induction false} NoBrLeft(s: string, i: int)
    ensures !BrAt(ReplaceBr(s), i)
  {
    var r := ReplaceBr(s);
    if |s| >= |BrTag| && s[..|BrTag|] == BrTag {
      var rest := ReplaceBr(s[|BrTag|..]);
      assert r == "\n" + rest;
      assert r[1..] == rest;
      if i > 0 {
        NoBrLeft(s[|BrTag|..], i - 1);
        if i + |BrTag| <= |r| {
          assert r[i..i + |BrTag|] == r[1..][i - 1..i - 1 + |BrTag|];
        }
      } else if |r| > 0 {
        assert r[0] != BrTag[0];
      }
    } else if s != [] {
      var rest := ReplaceBr(s[1..]);
      assert r == [s[0]] + rest;
      assert r[1..] == rest;
      if i > 0 {
        NoBrLeft(s[1..], i - 1);
        if i + |BrTag| <= |r| {
          assert r[i..i + |BrTag|] == r[1..][i - 1..i - 1 + |BrTag|];
        }
      } else {
        NewlineFreePrefix(s[1..], BrTag[1..]);
        if |BrTag| <= |r| {
          assert r[..|BrTag|] == [s[0]] + rest[..|BrTag| - 1];
        }
        if |BrTag| <= |s| {
          assert s[..|BrTag|] == [s[0]] + s[1..][..|BrTag| - 1];
        }
      }
    }
  }

  /** Text without the tag passes through unchanged. */
  lemma {:induction false} ReplaceBrKeepsPlainText(s: string)
    requires forall i :: !BrAt(s, i)
    ensures ReplaceBr(s) == s
  {
    if s != [] {
      assert !BrAt(s, 0);
      forall i ensures !BrAt(s[1..], i) {
        assert !BrAt(s, i + 1);
        if 0 <= i && i + |BrTag| <= |s| - 1 {
          assert s[1..][i..i + |BrTag|] == s[i + 1..i + 1 + |BrTag|];
        }
      }
      ReplaceBrKeepsPlainText(s[1..]);
    }
  }

  /** Together with `ReplaceBrKeepsPlainText` this pins `ReplaceBr` down:
      the text before the first tag is copied, the tag becomes one newline,
      and the rewrite continues after it. */
  lemma {:induction false} ReplaceBrFirstTag(a: string, b: string)
    requires forall i :: !BrAt(a, i)
    ensures ReplaceBr(a + BrTag + b) == a + "\n" + ReplaceBr(b)
  {
    var s := a + BrTag + b;
    if a == [] {
      assert s == BrTag + b;
      assert s[..|BrTag|] == BrTag && s[|BrTag|..] == b;
    } else {
      assert !BrAt(a, 0);
      if |a| >= |BrTag| {
        assert s[..|BrTag|] == a[..|BrTag|];
      } else {
        assert s[|a|] == '<';
        assert BrTag[|a|] != '<';
      }
      assert s[1..] == a[1..] + BrTag + b;
      forall i ensures !BrAt(a[1..], i) {
        assert !BrAt(a, i + 1);
        if 0 <= i && i + |BrTag| <= |a| - 1 {
          assert a[1..][i..i + |BrTag|] == a[i + 1..i + 1 + |BrTag|];
        }
      }
      ReplaceBrFirstTag(a[1..], b);
      assert ReplaceBr(s) == [a[0]] + ReplaceBr(s[1..]);
      assert [a[0]] + a[1..] == a;
    }
  }

  function DigitChar(d: nat): (c: char)
    requires d < 10
    ensures '0' <= c <= '9' && c as int - '0' as int == d
  {
    ('0' as int + d) as char
  }

  /** `str(n)` for a non-negative integer: its decimal digits, most
      significant first, without leading zeros. */
  function Decimal(n: nat): (s: string)
    ensures |s| >= 1
    ensures forall i :: 0 <= i < |s| ==> '0' <= s[i] <= '9'
    ensures s[0] == '0' ==> n == 0 && s == "0"
  {
    if n < 10 then [DigitChar(n)] else Decimal(n / 10) + [DigitChar(n % 10)]
  }

  /** The value of a string of decimal digits. */
  function DigitsValue(s: string): (n: nat)
    requires forall i :: 0 <= i < |s| ==> '0' <= s[i] <= '9'
  {
    if s == [] then 0
    else 10 * DigitsValue(s[..|s| - 1]) + (s[|s| - 1] as int - '0' as int)
  }

  /** Reading the digits back gives the number: distinct ids render as
      distinct strings. */
  lemma {:induction false} DecimalRoundTrip(n: nat)
    ensures DigitsValue(Decimal(n)) == n
  {
    if n >= 10 {
      var s := Decimal(n);
      assert s[..|s| - 1] == Decimal(n / 10);
      DecimalRoundTrip(n / 10);
    }
  }
}
