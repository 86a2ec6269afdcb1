/** Python string helpers the gateway relies on: `str.strip()`, `str.rstrip(c)` and `str(n)`. */
module Text {

  /** The characters CPython's `str.isspace()` accepts, which `str.strip()` removes: the
      ASCII whitespace and separators, then the Unicode spaces and line and paragraph separators,
      none of them beyond U+3000. */
  predicate IsSpace(c: char): (b: bool)
    ensures c < '\U{80}' ==> (b <==> c in [' ', '\t', '\n', '\U{B}', '\U{C}', '\r', '\U{1C}', '\U{1D}', '\U{1E}', '\U{1F}'])
    ensures b ==> c <= '\U{3000}'
  {
    c == ' ' || ('\t' <= c <= '\r') || ('\U{1C}' <= c <= '\U{1F}') || c == '\U{85}' || c == '\U{A0}'
    || c == '\U{1680}' || ('\U{2000}' <= c <= '\U{200A}') || c == '\U{2028}' || c == '\U{2029}'
    || c == '\U{202F}' || c == '\U{205F}' || c == '\U{3000}'
  }

  /** Empty or whitespace only: exactly the strings for which `not s or not s.strip()` holds. */
  ghost predicate IsBlank(s: string)
  {
    forall i :: 0 <= i < |s| ==> IsSpace(s[i])
  }

  /** `s.lstrip()`: a suffix of `s`, all of whose dropped characters are whitespace. */
  function StripLeft(s: string): (r: string)
    ensures |r| <= |s| && r == s[|s| - |r|..]
    ensures r != [] ==> !IsSpace(r[0])
    ensures forall i :: 0 <= i < |s| - |r| ==> IsSpace(s[i])
  {
    if s != [] && IsSpace(s[0]) then StripLeft(s[1..]) else s
  }

  /** `s.rstrip()`: a prefix of `s`, all of whose dropped characters are whitespace. */
  function StripRight(s: string): (r: string)
    ensures |r| <= |s| && r == s[..|r|]
    ensures r != [] ==> !IsSpace(r[|r| - 1])
    ensures forall i :: |r| <= i < |s| ==> IsSpace(s[i])
  {
    if s != [] && IsSpace(s[|s| - 1]) then StripRight(s[..|s| - 1]) else s
  }

  /** `s.strip()`: empty exactly when `s` is blank, otherwise a slice of `s` that neither
      starts nor ends with whitespace. */
  function Strip(s: string): (r: string)
    ensures r == [] <==> IsBlank(s)
    ensures |r| <= |StripLeft(s)| && r == StripLeft(s)[..|r|]
    ensures r != [] ==> !IsSpace(r[0]) && !IsSpace(r[|r| - 1])
    ensures forall i :: |r| <= i < |StripLeft(s)| ==> IsSpace(StripLeft(s)[i])
  {
    var left := StripLeft(s);
    var both := StripRight(left);
    BlankIffStripsToEmpty(s, left, both);
    assert both != [] ==> !IsSpace(both[0]) by {
      if both != [] { assert both[0] == left[0]; }
    }
    both
  }

  lemma BlankIffStripsToEmpty(s: string, l: string, r: string)
    requires l == StripLeft(s) && r == StripRight(l)
    ensures r == [] <==> IsBlank(s)
  {
    if r == [] {
      assert l == [];
    }
  }

  /** Leading whitespace is all `lstrip` looks at: a blank prefix makes no difference. */
  lemma {:induction false} StripLeftSkipsBlank(a: string, s: string)
    requires IsBlank(a)
    ensures StripLeft(a + s) == StripLeft(s)
  {
    if a != [] {
      assert (a + s)[1..] == a[1..] + s;
      StripLeftSkipsBlank(a[1..], s);
    } else {
      assert a + s == s;
    }
  }

  /** Once `lstrip` reaches a non-space character, everything after it is kept. */
  lemma {:induction false} StripLeftKeepsTail(s: string, b: string)
    requires !IsBlank(s)
    ensures StripLeft(s + b) == StripLeft(s) + b
  {
    assert (s + b)[0] == s[0];
    if IsSpace(s[0]) {
      assert (s + b)[1..] == s[1..] + b;
      StripLeftKeepsTail(s[1..], b);
    }
  }

  /** Trailing whitespace is all `rstrip` looks at: a blank suffix makes no difference. */
  lemma {:induction false} StripRightSkipsBlank(s: string, b: string)
    requires IsBlank(b)
    ensures StripRight(s + b) == StripRight(s)
  {
    if b != [] {
      assert (s + b)[..|s + b| - 1] == s + b[..|b| - 1];
      StripRightSkipsBlank(s, b[..|b| - 1]);
    } else {
      assert s + b == s;
    }
  }

  /** `(a + s + b).strip() == s.strip()` whenever `a` and `b` are whitespace only. */
  lemma StripIgnoresPadding(a: string, s: string, b: string)
    requires IsBlank(a) && IsBlank(b)
    ensures Strip(a + s + b) == Strip(s)
  {
    if IsBlank(s) {
      assert IsBlank(a + s + b) by {
        forall i | 0 <= i < |a + s + b| ensures IsSpace((a + s + b)[i]) {
          if i < |a| { assert (a + s + b)[i] == a[i]; }
          else if i < |a| + |s| { assert (a + s + b)[i] == s[i - |a|]; }
          else { assert (a + s + b)[i] == b[i - |a| - |s|]; }
        }
      }
    } else {
      assert a + s + b == a + (s + b);
      StripLeftSkipsBlank(a, s + b);
      StripLeftKeepsTail(s, b);
      StripRightSkipsBlank(StripLeft(s), b);
    }
  }

  /** `s.rstrip(c)`: `s` without every trailing `c`. */
  function TrimTrailing(s: string, c: char): (r: string)
    ensures |r| <= |s| && r == s[..|r|]
    ensures r == [] || r[|r| - 1] != c
    ensures forall i :: |r| <= i < |s| ==> s[i] == c
  {
    if s != [] && s[|s| - 1] == c then TrimTrailing(s[..|s| - 1], c) else s
  }

  /** Trimming twice changes nothing more than trimming once. */
  lemma TrimTrailingIdempotent(s: string, c: char)
    ensures TrimTrailing(TrimTrailing(s, c), c) == TrimTrailing(s, c)
  {
  }

  function DigitChar(d: nat): (c: char)
    requires d < 10
    ensures '0' <= c <= '9'
  {
    "0123456789"[d]
  }

  /** Python's `str(n)` for a non-negative integer: decimal digits, no leading zero. */
  function NatToString(n: nat): (s: string)
    ensures |s| > 0 && (|s| > 1 ==> s[0] != '0')
    ensures forall i :: 0 <= i < |s| ==> '0' <= s[i] <= '9'
  {
    if n < 10 then [DigitChar(n)] else NatToString(n / 10) + [DigitChar(n % 10)]
  }

  /** The number a string of decimal digits denotes, read most significant digit first. */
  function DecimalValue(s: string): (n: int)
    requires forall i :: 0 <= i < |s| ==> '0' <= s[i] <= '9'
    ensures n >= 0
  {
    if s == [] then 0 else 10 * DecimalValue(s[..|s| - 1]) + (s[|s| - 1] as int - '0' as int)
  }

  lemma {:induction false} DigitCharValue(d: nat)
    requires d < 10
    ensures DigitChar(d) as int - '0' as int == d
  {
    if d == 0 {} else if d == 1 {} else if d == 2 {} else if d == 3 {} else if d == 4 {}
    else if d == 5 {} else if d == 6 {} else if d == 7 {} else if d == 8 {} else {}
  }

  /** Reading back the digits `str(n)` writes gives `n` again. */
  lemma {:induction false} NatToStringReadsBack(n: nat)
    ensures DecimalValue(NatToString(n)) == n
  {
    var s := NatToString(n);
    if n < 10 {
      DigitCharValue(n);
      assert s[..0] == [];
    } else {
      NatToStringReadsBack(n / 10);
      DigitCharValue(n % 10);
      assert s[..|s| - 1] == NatToString(n / 10);
    }
  }

  /** Python's `str(i)` for any integer. */
  function IntToString(i: int): (s: string)
    ensures |s| > 0 && (s[0] == '-' <==> i < 0)
    ensures var digits := if i < 0 then s[1..] else s;
      digits != [] && (|digits| > 1 ==> digits[0] != '0')
      && forall k :: 0 <= k < |digits| ==> '0' <= digits[k] <= '9'
  {
    if i < 0 then "-" + NatToString(-i) else NatToString(i)
  }

  /** `str(i)` reads back as `i`: a leading minus negates the digits that follow it. */
  lemma IntToStringReadsBack(i: int)
    ensures i < 0 ==> -DecimalValue(IntToString(i)[1..]) == i
    ensures i >= 0 ==> DecimalValue(IntToString(i)) == i
  {
    var s := IntToString(i);
    if i < 0 {
      var digits := NatToString(-i);
      assert s == "-" + digits;
      assert s[1..] == digits;
      NatToStringReadsBack(-i);
    } else {
      NatToStringReadsBack(i);
    }
  }
}
