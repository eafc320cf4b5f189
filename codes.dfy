/**
 * The unit code as the converters of Main.py see it: `unite.strip().upper()`.
 * Python's str.strip() removes the characters str.isspace() accepts from both
 * ends; str.upper() is modelled on ASCII letters.
 */
module UnitCodes {

  /** The characters Python's str.isspace() accepts. */
  predicate IsSpace(c: char) {
    var n := c as int;
    (9 <= n <= 13) || (28 <= n <= 32) || n == 0x85 || n == 0xA0 || n == 0x1680
    || (0x2000 <= n <= 0x200A) || n == 0x2028 || n == 0x2029 || n == 0x202F
    || n == 0x205F || n == 0x3000
  }

  predicate AllSpace(s: string) {
    forall i :: 0 <= i < |s| ==> IsSpace(s[i])
  }

  function TrimStart(s: string): string {
    if |s| > 0 && IsSpace(s[0]) then TrimStart(s[1..]) else s
  }

  function TrimEnd(s: string): string {
    if |s| > 0 && IsSpace(s[|s| - 1]) then TrimEnd(s[..|s| - 1]) else s
  }

  /** str.strip(): white space removed at both ends. */
  function Strip(s: string): string {
    TrimEnd(TrimStart(s))
  }

  function UpperChar(c: char): (u: char)
    ensures 'a' <= c <= 'z' ==> u as int == c as int - 32
    ensures !('a' <= c <= 'z') ==> u == c
    ensures IsSpace(u) <==> IsSpace(c)
    ensures !('a' <= u <= 'z')
  {
    if 'a' <= c <= 'z' then (c as int - 32) as char else c
  }

  /** str.upper() on ASCII letters; every other character is kept. */
  function Upper(s: string): string {
    if s == [] then [] else [UpperChar(s[0])] + Upper(s[1..])
  }

  /** unite.strip().upper(): the key looked up in a factor table. */
  function NormalizeCode(code: string): string {
    Upper(Strip(code))
  }

  lemma {:induction false} UpperAt(s: string, i: nat)
    requires i < |s|
    ensures |Upper(s)| == |s| && Upper(s)[i] == UpperChar(s[i])
    decreases |s|
  {
    UpperLength(s);
    if i > 0 {
      UpperAt(s[1..], i - 1);
    }
  }

  lemma {:induction false} UpperLength(s: string)
    ensures |Upper(s)| == |s|
    decreases |s|
  {
    if s != [] {
      UpperLength(s[1..]);
    }
  }

  lemma {:induction false} UpperConcat(a: string, b: string)
    ensures Upper(a + b) == Upper(a) + Upper(b)
    decreases |a|
  {
    if a == [] {
      assert a + b == b;
    } else {
      assert (a + b)[1..] == a[1..] + b;
      UpperConcat(a[1..], b);
    }
  }

  lemma {:induction false} TrimStartPadding(p: string, t: string)
    requires AllSpace(p)
    requires t == [] || !IsSpace(t[0])
    ensures TrimStart(p + t) == t
    decreases |p|
  {
    if |p| > 0 {
      assert (p + t)[1..] == p[1..] + t;
      TrimStartPadding(p[1..], t);
    } else {
      assert p + t == t;
    }
  }

  lemma {:induction false} TrimEndPadding(t: string, q: string)
    requires AllSpace(q)
    requires t == [] || !IsSpace(t[|t| - 1])
    ensures TrimEnd(t + q) == t
    decreases |q|
  {
    if |q| > 0 {
      assert (t + q)[..|t + q| - 1] == t + q[..|q| - 1];
      TrimEndPadding(t, q[..|q| - 1]);
    } else {
      assert t + q == t;
    }
  }

  /**
   * Surrounding white space is ignored: a code written with blanks around it
   * normalises to the upper-cased code itself.
   */
  lemma NormalizePadded(p: string, s: string, q: string)
    requires AllSpace(p) && AllSpace(q)
    requires s != [] && !IsSpace(s[0]) && !IsSpace(s[|s| - 1])
    ensures NormalizeCode(p + s + q) == Upper(s)
  {
    assert p + s + q == p + (s + q);
    TrimStartPadding(p, s + q);
    TrimEndPadding(s, q);
  }

  /** Letter case is ignored: upper-casing a code first changes nothing. */
  lemma NormalizeIgnoresCase(code: string)
    ensures NormalizeCode(Upper(code)) == NormalizeCode(code)
  {
    UpperCommutesWithStrip(code);
    UpperIdempotent(Strip(code));
  }

  /** Normalising twice is normalising once. */
  lemma NormalizeIdempotent(code: string)
    ensures NormalizeCode(NormalizeCode(code)) == NormalizeCode(code)
  {
    var t := Strip(code);
    StripIdempotent(code);
    UpperCommutesWithStrip(t);
    UpperIdempotent(t);
  }

  lemma {:induction false} UpperIdempotent(s: string)
    ensures Upper(Upper(s)) == Upper(s)
    decreases |s|
  {
    if s != [] {
      UpperIdempotent(s[1..]);
    }
  }

  lemma {:induction false} TrimStartIdempotent(s: string)
    ensures TrimStart(TrimStart(s)) == TrimStart(s)
    decreases |s|
  {
    if |s| > 0 && IsSpace(s[0]) {
      TrimStartIdempotent(s[1..]);
    }
  }

  lemma {:induction false} TrimEndIdempotent(s: string)
    ensures TrimEnd(TrimEnd(s)) == TrimEnd(s)
    decreases |s|
  {
    if |s| > 0 && IsSpace(s[|s| - 1]) {
      TrimEndIdempotent(s[..|s| - 1]);
    }
  }

  lemma {:induction false} TrimEndKeepsStart(s: string)
    requires s == [] || !IsSpace(s[0])
    ensures TrimEnd(s) == [] || !IsSpace(TrimEnd(s)[0])
    decreases |s|
  {
    if |s| > 0 && IsSpace(s[|s| - 1]) {
      TrimEndKeepsStart(s[..|s| - 1]);
    }
  }

  lemma {:induction false} TrimStartFirst(s: string)
    ensures TrimStart(s) == [] || !IsSpace(TrimStart(s)[0])
    decreases |s|
  {
    if |s| > 0 && IsSpace(s[0]) {
      TrimStartFirst(s[1..]);
    }
  }

  lemma StripIdempotent(s: string)
    ensures Strip(Strip(s)) == Strip(s)
  {
    var t := TrimStart(s);
    TrimStartFirst(s);
    TrimEndKeepsStart(t);
    TrimEndIdempotent(t);
  }

  lemma {:induction false} UpperCommutesWithTrimStart(s: string)
    ensures TrimStart(Upper(s)) == Upper(TrimStart(s))
    decreases |s|
  {
    if |s| > 0 {
      UpperAt(s, 0);
      assert Upper(s)[1..] == Upper(s[1..]);
      if IsSpace(s[0]) {
        UpperCommutesWithTrimStart(s[1..]);
      }
    }
  }

  lemma {:induction false} UpperCommutesWithTrimEnd(s: string)
    ensures TrimEnd(Upper(s)) == Upper(TrimEnd(s))
    decreases |s|
  {
    if |s| > 0 {
      var n := |s| - 1;
      assert s == s[..n] + [s[n]];
      UpperConcat(s[..n], [s[n]]);
      UpperLength(s[..n]);
      UpperLength(s);
      assert Upper([s[n]]) == [UpperChar(s[n])];
      assert Upper(s)[..n] == Upper(s[..n]);
      if IsSpace(s[n]) {
        UpperCommutesWithTrimEnd(s[..n]);
      }
    }
  }

  lemma UpperCommutesWithStrip(s: string)
    ensures Strip(Upper(s)) == Upper(Strip(s))
  {
    UpperCommutesWithTrimStart(s);
    UpperCommutesWithTrimEnd(TrimStart(s));
  }
}
