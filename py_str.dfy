/** The Python string builtins the hidden-layer parse uses, `str.split` with
    a one-character separator and `int(str)` in base 10, and the two its
    round-trip property needs, `str.join` and `str(int)`.

    `int(s)` is modelled for what decimal layer sizes need: surrounding ASCII
    whitespace (the space and tab through carriage return, which is all that
    `int` skips below 128), an optional `+` or `-`, then one or more ASCII
    digits. */
module PyStr {
  import opened Wrappers

  /** Number of occurrences of `c` in `s`. */
  function Count(s: string, c: char): nat
  {
    if s == [] then 0 else (if s[0] == c then 1 else 0) + Count(s[1..], c)
  }

  /** `s.split(sep)`: the pieces between consecutive separators, so the empty
      string gives one empty piece and every separator starts a new piece. */
  function Split(s: string, sep: char): (pieces: seq<string>)
    ensures |pieces| == Count(s, sep) + 1
    ensures forall i :: 0 <= i < |pieces| ==> sep !in pieces[i]
  {
    if s == [] then [""]
    else
      var rest := Split(s[1..], sep);
      if s[0] == sep then [""] + rest
      else [[s[0]] + rest[0]] + rest[1..]
  }

  /** `sep.join(pieces)`. */
  function Join(pieces: seq<string>, sep: char): string
  {
    if pieces == [] then ""
    else if |pieces| == 1 then pieces[0]
    else pieces[0] + [sep] + Join(pieces[1..], sep)
  }

  /** A string without a separator is its own only piece. */
  lemma {:induction false} SplitWithoutSeparator(s: string, sep: char)
    requires sep !in s
    ensures Split(s, sep) == [s]
  {
    if s != [] {
      assert sep !in s[1..] by {
        forall i | 0 <= i < |s[1..]| ensures s[1..][i] != sep {
          assert s[1..][i] == s[i + 1];
        }
      }
      SplitWithoutSeparator(s[1..], sep);
      assert [s[0]] + s[1..] == s;
    }
  }

  /** Splitting at one separator splits the two sides independently. */
  lemma {:induction false} SplitAtSeparator(a: string, b: string, sep: char)
    ensures Split(a + [sep] + b, sep) == Split(a, sep) + Split(b, sep)
  {
    if a == [] {
      assert a + [sep] + b == [sep] + b;
      assert ([sep] + b)[1..] == b;
    } else {
      assert (a + [sep] + b)[0] == a[0];
      assert (a + [sep] + b)[1..] == a[1..] + [sep] + b;
      SplitAtSeparator(a[1..], b, sep);
    }
  }

  /** Splitting undoes joining, for a non-empty list of separator-free pieces. */
  lemma {:induction false} SplitJoin(pieces: seq<string>, sep: char)
    requires |pieces| > 0
    requires forall i :: 0 <= i < |pieces| ==> sep !in pieces[i]
    ensures Split(Join(pieces, sep), sep) == pieces
  {
    SplitWithoutSeparator(pieces[0], sep);
    if |pieces| > 1 {
      SplitJoin(pieces[1..], sep);
      SplitAtSeparator(pieces[0], Join(pieces[1..], sep), sep);
      assert [pieces[0]] + pieces[1..] == pieces;
    }
  }

  /** Joining undoes splitting. */
  lemma {:induction false} JoinSplit(s: string, sep: char)
    ensures Join(Split(s, sep), sep) == s
  {
    if s != [] {
      var rest := Split(s[1..], sep);
      JoinSplit(s[1..], sep);
      if s[0] == sep {
        assert ([""] + rest)[1..] == rest;
      } else if |rest| > 1 {
        assert ([[s[0]] + rest[0]] + rest[1..])[1..] == rest[1..];
      }
      assert [s[0]] + s[1..] == s;
    }
  }

  /** Every character other than the separator lands in some piece. */
  lemma {:induction false} SplitKeeps(s: string, sep: char, i: int)
    requires 0 <= i < |s| && s[i] != sep
    ensures exists k, j :: 0 <= k < |Split(s, sep)| && 0 <= j < |Split(s, sep)[k]| && Split(s, sep)[k][j] == s[i]
  {
    var pieces := Split(s, sep);
    var rest := Split(s[1..], sep);
    if i == 0 {
      assert pieces[0][0] == s[0];
    } else {
      SplitKeeps(s[1..], sep, i - 1);
      var k, j :| 0 <= k < |rest| && 0 <= j < |rest[k]| && rest[k][j] == s[1..][i - 1];
      if s[0] == sep {
        assert pieces[k + 1][j] == s[i];
      } else if k == 0 {
        assert pieces[0][j + 1] == s[i];
      } else {
        assert pieces[k][j] == s[i];
      }
    }
  }

  /** The ASCII whitespace `int` skips around a literal: the space, and tab
      through carriage return. The information separators `\x1c`..`\x1f`,
      which `str.isspace` accepts, are not skipped. */
  predicate IsSpace(c: char)
  {
    c == ' ' || ('\t' <= c <= '\r')
  }

  predicate IsDigit(c: char)
  {
    '0' <= c <= '9'
  }

  predicate AllDigits(s: string)
  {
    forall i :: 0 <= i < |s| ==> IsDigit(s[i])
  }

  /** Drops the leading whitespace and nothing else. */
  function StripLeading(s: string): (r: string)
    ensures |r| <= |s| && r == s[|s| - |r|..]
    ensures forall i :: 0 <= i < |s| - |r| ==> IsSpace(s[i])
    ensures r != [] ==> !IsSpace(r[0])
  {
    if s != [] && IsSpace(s[0]) then StripLeading(s[1..]) else s
  }

  /** Drops the trailing whitespace and nothing else. */
  function StripTrailing(s: string): (r: string)
    ensures |r| <= |s| && r == s[..|r|]
    ensures forall i :: |r| <= i < |s| ==> IsSpace(s[i])
    ensures r != [] ==> !IsSpace(r[|r| - 1])
  {
    if s != [] && IsSpace(s[|s| - 1]) then StripTrailing(s[..|s| - 1]) else s
  }

  function Strip(s: string): string
  {
    StripTrailing(StripLeading(s))
  }

  predicate AllSpace(s: string)
  {
    forall i :: 0 <= i < |s| ==> IsSpace(s[i])
  }

  /** The literals of the modelled grammar: whitespace, an optional `+` or
      `-`, one or more digits, whitespace. */
  ghost predicate IsIntLiteral(s: string)
  {
    exists w1, sign, d, w2 :: AllSpace(w1) && AllSpace(w2) && (sign == "" || sign == "+" || sign == "-")
      && |d| > 0 && AllDigits(d) && s == w1 + (sign + d) + w2
  }

  /** The value of a run of decimal digits, most significant first. */
  function DigitsValue(s: string): nat
    requires AllDigits(s)
  {
    if s == [] then 0
    else 10 * DigitsValue(s[..|s| - 1]) + (s[|s| - 1] as int - '0' as int)
  }

  /** `int` on a literal whose surrounding whitespace is already gone: an
      optional sign, then one or more digits. */
  function ParseStripped(t: string): Option<int>
  {
    if |t| > 0 && (t[0] == '+' || t[0] == '-') then
      var digits := t[1..];
      if |digits| > 0 && AllDigits(digits) then
        Some(if t[0] == '-' then 0 - DigitsValue(digits) as int else DigitsValue(digits))
      else None
    else if |t| > 0 && AllDigits(t) then Some(DigitsValue(t))
    else None
  }

  /** `int(s)`, or `None` where Python raises ValueError. What it accepts is a
      literal of the modelled grammar, so `"6 4"`, `"- 5"`, `"1-2"`, `"+-1"`,
      an empty piece, a blank piece and a bare sign are all rejected. */
  function ParseInt(s: string): (r: Option<int>)
    ensures r.Some? ==> IsIntLiteral(s)
  {
    StrippedLiteral(s);
    ParseStripped(Strip(s))
  }

  /** The whitespace `Strip` removes from the front of `s`. */
  function StrippedFront(s: string): (w: string)
    ensures AllSpace(w)
    ensures s == w + StripLeading(s)
  {
    var l := StripLeading(s);
    var w := s[..|s| - |l|];
    assert forall i :: 0 <= i < |w| ==> w[i] == s[i];
    assert s == w + s[|s| - |l|..];
    w
  }

  /** The whitespace `Strip` removes from the back of `s`. */
  function StrippedBack(s: string): (w: string)
    ensures AllSpace(w)
    ensures StripLeading(s) == Strip(s) + w
  {
    var l := StripLeading(s);
    var t := StripTrailing(l);
    var w := l[|t|..];
    assert forall i :: 0 <= i < |w| ==> w[i] == l[|t| + i];
    assert l == l[..|t|] + w;
    w
  }

  /** What `ParseStripped` accepts is a sign, possibly empty, then digits. */
  lemma StrippedOnlyLiterals(t: string) returns (sign: string, d: string)
    requires ParseStripped(t).Some?
    ensures sign == "" || sign == "+" || sign == "-"
    ensures |d| > 0 && AllDigits(d) && t == sign + d
  {
    if t[0] == '+' || t[0] == '-' {
      sign, d := t[..1], t[1..];
    } else {
      sign, d := "", t;
    }
  }

  /** A string whose stripped part `ParseStripped` accepts is a literal. */
  lemma StrippedLiteral(s: string)
    ensures ParseStripped(Strip(s)).Some? ==> IsIntLiteral(s)
  {
    if ParseStripped(Strip(s)).Some? {
      var w1, w2 := StrippedFront(s), StrippedBack(s);
      var sign, d := StrippedOnlyLiterals(Strip(s));
      assert s == w1 + (sign + d) + w2;
    }
  }

  /** A literal holds a digit, and nothing but digits, signs and whitespace. */
  lemma LiteralChars(s: string)
    requires IsIntLiteral(s)
    ensures exists i :: 0 <= i < |s| && IsDigit(s[i])
    ensures forall i :: 0 <= i < |s| ==> IsDigit(s[i]) || IsSpace(s[i]) || s[i] == '+' || s[i] == '-'
  {
    var w1, sign, d, w2 :| AllSpace(w1) && AllSpace(w2) && (sign == "" || sign == "+" || sign == "-")
      && |d| > 0 && AllDigits(d) && s == w1 + (sign + d) + w2;
    var a, b := |w1| + |sign|, |w1| + |sign| + |d|;
    assert s[a] == d[0];
    forall i | 0 <= i < |s| ensures IsDigit(s[i]) || IsSpace(s[i]) || s[i] == '+' || s[i] == '-' {
      if i < |w1| {
        assert s[i] == w1[i];
      } else if i < a {
        assert s[i] == sign[i - |w1|];
      } else if i < b {
        assert s[i] == d[i - a];
      } else {
        assert s[i] == w2[i - b];
      }
    }
  }

  /** Leading whitespace in front of a part that starts otherwise is dropped. */
  lemma {:induction false} StripLeadingSpaces(w: string, u: string)
    requires AllSpace(w)
    requires u != [] && !IsSpace(u[0])
    ensures StripLeading(w + u) == u
  {
    if w != [] {
      assert (w + u)[1..] == w[1..] + u;
      StripLeadingSpaces(w[1..], u);
    }
  }

  /** Trailing whitespace behind a part that ends otherwise is dropped. */
  lemma {:induction false} StripTrailingSpaces(u: string, w: string)
    requires AllSpace(w)
    requires u != [] && !IsSpace(u[|u| - 1])
    ensures StripTrailing(u + w) == u
  {
    if w != [] {
      assert (u + w)[..|u + w| - 1] == u + w[..|w| - 1];
      StripTrailingSpaces(u, w[..|w| - 1]);
    }
  }

  /** Whitespace around a literal that starts and ends otherwise is ignored. */
  lemma StripAround(w1: string, t: string, w2: string)
    requires AllSpace(w1) && AllSpace(w2)
    requires t != [] && !IsSpace(t[0]) && !IsSpace(t[|t| - 1])
    ensures Strip(w1 + t + w2) == t
  {
    assert w1 + t + w2 == w1 + (t + w2);
    StripLeadingSpaces(w1, t + w2);
    StripTrailingSpaces(t, w2);
  }

  /** A sign followed by digits, without whitespace, is read as that number. */
  lemma ParseSignedDigits(sign: string, d: string)
    requires sign == "" || sign == "+" || sign == "-"
    requires |d| > 0 && AllDigits(d)
    ensures ParseStripped(sign + d) == Some(if sign == "-" then 0 - DigitsValue(d) as int else DigitsValue(d))
    ensures !IsSpace((sign + d)[0]) && !IsSpace((sign + d)[|sign + d| - 1])
  {
    var t := sign + d;
    assert t[|t| - 1] == d[|d| - 1];
    if sign != "" {
      assert t[0] == sign[0];
      assert t[1..] == d;
    } else {
      assert t == d;
      assert IsDigit(t[0]);
    }
  }

  /** Every literal of the modelled grammar is accepted, with the value its
      sign and digits denote: whitespace, an optional `+` or `-`, one or more
      digits, whitespace. */
  lemma ParseIntAccepts(w1: string, sign: string, d: string, w2: string)
    requires AllSpace(w1) && AllSpace(w2)
    requires sign == "" || sign == "+" || sign == "-"
    requires |d| > 0 && AllDigits(d)
    ensures ParseInt(w1 + (sign + d) + w2) == Some(if sign == "-" then 0 - DigitsValue(d) as int else DigitsValue(d))
  {
    ParseSignedDigits(sign, d);
    StripAround(w1, sign + d, w2);
  }

  /** The empty piece is rejected. */
  lemma ParseIntEmpty()
    ensures ParseInt("") == None
  {
  }

  /** `ParseInt` accepts exactly the literals of the modelled grammar. */
  lemma ParseIntExactly(s: string)
    ensures ParseInt(s).Some? <==> IsIntLiteral(s)
  {
    if IsIntLiteral(s) {
      var w1, sign, d, w2 :| AllSpace(w1) && AllSpace(w2) && (sign == "" || sign == "+" || sign == "-")
        && |d| > 0 && AllDigits(d) && s == w1 + (sign + d) + w2;
      ParseIntAccepts(w1, sign, d, w2);
    }
  }

  function DigitChar(d: nat): (c: char)
    requires d < 10
    ensures IsDigit(c) && c as int - '0' as int == d
  {
    ('0' as int + d) as char
  }

  /** `str(n)` for a natural number: its decimal digits, with no leading zeros. */
  function NatToString(n: nat): (s: string)
    ensures |s| > 0 && AllDigits(s)
  {
    if n < 10 then [DigitChar(n)] else NatToString(n / 10) + [DigitChar(n % 10)]
  }

  /** `str(n)`. */
  function IntToString(n: int): (s: string)
    ensures |s| > 0 && !IsSpace(s[0]) && !IsSpace(s[|s| - 1])
    ensures forall i :: 0 <= i < |s| ==> IsDigit(s[i]) || (i == 0 && s[i] == '-')
  {
    if n < 0 then "-" + NatToString(-n) else NatToString(n)
  }

  lemma {:induction false} NatToStringValue(n: nat)
    ensures DigitsValue(NatToString(n)) == n
  {
    if n >= 10 {
      var s := NatToString(n);
      NatToStringValue(n / 10);
      assert s[..|s| - 1] == NatToString(n / 10);
    }
  }

  /** `int(str(n)) == n`. */
  lemma ParseIntToString(n: int)
    ensures ParseInt(IntToString(n)) == Some(n)
  {
    var s := IntToString(n);
    var sign, d := if n < 0 then "-" else "", NatToString(if n < 0 then -n else n);
    assert s == sign + d;
    assert StripLeading(s) == s;
    assert Strip(s) == s;
    ParseSignedDigits(sign, d);
    NatToStringValue(if n < 0 then -n else n);
  }
}
