/** The string operations the core relies on: Python's `str.strip()`,
    substring membership (`sub in s`) and decimal formatting of a count. */
module Text {

  /** The characters Python's `str.isspace()` accepts, which `str.strip()`
      without an argument removes from both ends. */
  predicate IsSpace(c: char)
  {
    var n := c as int;
    n == 0x20 || 0x09 <= n <= 0x0D || 0x1C <= n <= 0x1F || n == 0x85 || n == 0xA0
    || n == 0x1680 || 0x2000 <= n <= 0x200A || n == 0x2028 || n == 0x2029
    || n == 0x202F || n == 0x205F || n == 0x3000
  }

  predicate AllSpace(s: string)
  {
    forall i :: 0 <= i < |s| ==> IsSpace(s[i])
  }

  /** Leading whitespace removed. */
  function LStrip(s: string): (r: string)
    ensures |r| <= |s| && r == s[|s| - |r|..]
    ensures r != [] ==> !IsSpace(r[0])
  {
    if s != [] && IsSpace(s[0]) then LStrip(s[1..]) else s
  }

  /** Trailing whitespace removed. */
  function RStrip(s: string): (r: string)
    ensures |r| <= |s| && r == s[..|r|]
    ensures r != [] ==> !IsSpace(r[|r| - 1])
  {
    if s != [] && IsSpace(s[|s| - 1]) then RStrip(s[..|s| - 1]) else s
  }

  /** Python's `s.strip()`. */
  function Strip(s: string): string
  {
    RStrip(LStrip(s))
  }

  lemma {:induction false} LStripAllSpace(s: string)
    ensures LStrip(s) == [] <==> AllSpace(s)
  {
    if s == [] {
    } else if IsSpace(s[0]) {
      var t := s[1..];
      LStripAllSpace(t);
      assert LStrip(s) == LStrip(t);
      if AllSpace(t) {
        forall i | 0 <= i < |s| ensures IsSpace(s[i]) {
          if i > 0 { assert s[i] == t[i - 1]; }
        }
      } else {
        var i :| 0 <= i < |t| && !IsSpace(t[i]);
        assert s[i + 1] == t[i];
      }
    } else {
      assert !IsSpace(s[0]);
    }
  }

  lemma {:induction false} RStripAllSpace(s: string)
    ensures RStrip(s) == [] <==> AllSpace(s)
  {
    if s == [] {
    } else if IsSpace(s[|s| - 1]) {
      var p := s[..|s| - 1];
      RStripAllSpace(p);
      if AllSpace(p) {
        forall i | 0 <= i < |s| ensures IsSpace(s[i]) {
          if i < |s| - 1 { assert s[i] == p[i]; }
        }
      } else {
        var i :| 0 <= i < |p| && !IsSpace(p[i]);
        assert s[i] == p[i];
      }
    } else {
      assert !IsSpace(s[|s| - 1]);
    }
  }

  /** A stripped string is empty exactly when the input is all whitespace. */
  lemma StripEmptyIff(s: string)
    ensures Strip(s) == [] <==> AllSpace(s)
  {
    LStripAllSpace(s);
    RStripAllSpace(LStrip(s));
  }

  /** Leading whitespace that is followed by a non-space character is
      exactly what `lstrip` removes. */
  lemma {:induction false} LStripSpacePrefix(a: string, b: string)
    requires AllSpace(a)
    requires b != [] && !IsSpace(b[0])
    ensures LStrip(a + b) == b
  {
    if a == [] {
      assert a + b == b;
    } else {
      assert (a + b)[1..] == a[1..] + b;
      LStripSpacePrefix(a[1..], b);
    }
  }

  /** `rstrip` only looks at the last piece when the piece before it ends in
      a non-space character. */
  lemma {:induction false} RStripAppend(a: string, b: string)
    requires a != [] && !IsSpace(a[|a| - 1])
    ensures RStrip(a + b) == a + RStrip(b)
  {
    if b == [] {
      assert a + b == a;
    } else if IsSpace(b[|b| - 1]) {
      assert (a + b)[..|a + b| - 1] == a + b[..|b| - 1];
      RStripAppend(a, b[..|b| - 1]);
    } else {
      assert (a + b)[|a + b| - 1] == b[|b| - 1];
    }
  }

  /** Whitespace around a core that starts and ends with a non-space
      character is exactly what `strip` removes. */
  lemma StripAround(a: string, b: string, c: string)
    requires AllSpace(a) && AllSpace(c)
    requires b != [] && !IsSpace(b[0]) && !IsSpace(b[|b| - 1])
    ensures Strip(a + b + c) == b
  {
    assert a + b + c == a + (b + c);
    LStripSpacePrefix(a, b + c);
    RStripAppend(b, c);
    RStripAllSpace(c);
  }

  /** Python's `sub in s` on strings. */
  predicate Contains(s: string, sub: string)
  {
    |sub| <= |s| && (s[..|sub|] == sub || Contains(s[1..], sub))
  }

  predicate IsDigit(c: char)
  {
    '0' <= c <= '9'
  }

  function DigitChar(d: nat): (c: char)
    requires d < 10
    ensures IsDigit(c) && (c as int) - ('0' as int) == d
  {
    ['0', '1', '2', '3', '4', '5', '6', '7', '8', '9'][d]
  }

  /** Decimal notation of a natural number, as Python's `f"{n}"` writes it. */
  function NatToString(n: nat): (r: string)
    ensures r != [] && forall i :: 0 <= i < |r| ==> IsDigit(r[i])
    ensures |r| == 1 <==> n < 10
  {
    if n < 10 then [DigitChar(n)] else NatToString(n / 10) + [DigitChar(n % 10)]
  }

  /** Different numbers are written differently. */
  lemma {:induction false} NatToStringInjective(a: nat, b: nat)
    requires NatToString(a) == NatToString(b)
    ensures a == b
  {
    if a >= 10 && b >= 10 {
      var sa, sb := NatToString(a), NatToString(b);
      assert sa[|sa| - 1] == sb[|sb| - 1];
      assert a % 10 == b % 10;
      assert sa[..|sa| - 1] == NatToString(a / 10);
      assert sb[..|sb| - 1] == NatToString(b / 10);
      NatToStringInjective(a / 10, b / 10);
    } else if a < 10 && b < 10 {
      assert NatToString(a)[0] == NatToString(b)[0];
    }
  }
}
