/** The string operations the servers apply: `toLowerCase`, `trim`, `includes`
    and the decimal rendering of a number inside a template string. */
module Text {

  /** The whitespace `trim` removes, restricted to a fixed set:
      space, tab, line feed, vertical tab, form feed, carriage return,
      no-break space and the byte order mark. */
  predicate IsSpace(c: char)
  {
    c == ' ' || c == '\t' || c == '\n' || c == '\U{000B}' || c == '\U{000C}' || c == '\r'
    || c == '\U{00A0}' || c == '\U{FEFF}'
  }

  predicate AllSpace(s: string)
  {
    forall i :: 0 <= i < |s| ==> IsSpace(s[i])
  }

  /** Neither end of `s` is whitespace: what a trimmed string looks like. */
  predicate NoEdgeSpace(s: string)
  {
    s == [] || (!IsSpace(s[0]) && !IsSpace(s[|s| - 1]))
  }

  /** ASCII lower-casing of one character. */
  function LowerChar(c: char): char
  {
    if 'A' <= c <= 'Z' then (c as int + 32) as char else c
  }

  function Lower(s: string): (r: string)
    ensures |r| == |s|
  {
    seq(|s|, i requires 0 <= i < |s| => LowerChar(s[i]))
  }

  /** The leading half of `String.prototype.trim`: drops the leading
      whitespace. */
  function TrimStart(s: string): string
  {
    if |s| > 0 && IsSpace(s[0]) then TrimStart(s[1..]) else s
  }

  /** The trailing half of `String.prototype.trim`: drops the trailing
      whitespace. */
  function TrimEnd(s: string): string
  {
    if |s| > 0 && IsSpace(s[|s| - 1]) then TrimEnd(s[..|s| - 1]) else s
  }

  /** The leading half of `trim` leaves a suffix, removes only whitespace, and leaves no
      whitespace in front. */
  lemma {:induction false} TrimStartShape(s: string)
    ensures |TrimStart(s)| <= |s| && TrimStart(s) == s[|s| - |TrimStart(s)|..]
    ensures AllSpace(s[..|s| - |TrimStart(s)|])
    ensures TrimStart(s) == [] || !IsSpace(TrimStart(s)[0])
    decreases |s|
  {
    if |s| > 0 && IsSpace(s[0]) {
      TrimStartShape(s[1..]);
      var r := TrimStart(s[1..]);
      assert s[..|s| - |r|] == [s[0]] + s[1..][..|s| - 1 - |r|];
    }
  }

  /** The trailing half of `trim` leaves a prefix, removes only whitespace, and leaves no
      whitespace at the end. */
  lemma {:induction false} TrimEndShape(s: string)
    ensures |TrimEnd(s)| <= |s| && TrimEnd(s) == s[..|TrimEnd(s)|]
    ensures AllSpace(s[|TrimEnd(s)|..])
    ensures TrimEnd(s) == [] || !IsSpace(TrimEnd(s)[|TrimEnd(s)| - 1])
    decreases |s|
  {
    if |s| > 0 && IsSpace(s[|s| - 1]) {
      TrimEndShape(s[..|s| - 1]);
      var r := TrimEnd(s[..|s| - 1]);
      assert s[|r|..] == s[..|s| - 1][|r|..] + [s[|s| - 1]];
    }
  }

  /** `String.prototype.trim`. */
  function Trim(s: string): string
  {
    TrimEnd(TrimStart(s))
  }

  /** What `trim` leaves: an infix of `s`, whitespace only around it,
      and no whitespace at either of its ends. */
  lemma TrimShape(s: string) returns (i: nat)
    ensures i + |Trim(s)| <= |s| && s[i..i + |Trim(s)|] == Trim(s)
    ensures AllSpace(s[..i]) && AllSpace(s[i + |Trim(s)|..])
    ensures NoEdgeSpace(Trim(s))
  {
    var u := TrimStart(s);
    var t := TrimEnd(u);
    TrimStartShape(s);
    TrimEndShape(u);
    i := |s| - |u|;
    assert s[i..i + |t|] == u[..|t|];
    assert s[i + |t|..] == u[|t|..];
  }

  lemma {:induction false} TrimStartSkips(p: string, t: string)
    requires AllSpace(p)
    requires t == [] || !IsSpace(t[0])
    ensures TrimStart(p + t) == t
    decreases |p|
  {
    if p != [] {
      assert (p + t)[1..] == p[1..] + t;
      TrimStartSkips(p[1..], t);
    } else {
      assert p + t == t;
    }
  }

  lemma {:induction false} TrimEndSkips(t: string, q: string)
    requires AllSpace(q)
    requires t == [] || !IsSpace(t[|t| - 1])
    ensures TrimEnd(t + q) == t
    decreases |q|
  {
    if q != [] {
      assert (t + q)[..|t + q| - 1] == t + q[..|q| - 1];
      TrimEndSkips(t, q[..|q| - 1]);
    } else {
      assert t + q == t;
    }
  }

  /** The converse of TrimShape: a string that is whitespace, a core without
      whitespace at its ends, and whitespace again, trims to that core. */
  lemma TrimUnique(p: string, t: string, q: string)
    requires AllSpace(p) && AllSpace(q) && NoEdgeSpace(t)
    ensures Trim(p + t + q) == t
  {
    if t == [] {
      assert p + t + q == p + q;
      assert AllSpace(p + q);
      TrimStartSkips(p + q, []);
      assert p + q + [] == p + q;
    } else {
      assert p + t + q == p + (t + q);
      TrimStartSkips(p, t + q);
      TrimEndSkips(t, q);
    }
  }

  lemma TrimIdempotent(s: string)
    ensures Trim(Trim(s)) == Trim(s)
  {
    var _ := TrimShape(s);
    TrimUnique([], Trim(s), []);
    assert [] + Trim(s) + [] == Trim(s);
  }

  lemma LowerAppend(a: string, b: string)
    ensures Lower(a + b) == Lower(a) + Lower(b)
  {
  }

  lemma LowerAllSpace(s: string)
    requires AllSpace(s)
    ensures AllSpace(Lower(s))
  {
  }

  lemma LowerNoEdgeSpace(s: string)
    requires NoEdgeSpace(s)
    ensures NoEdgeSpace(Lower(s))
  {
  }

  /** Lower-casing and trimming commute, so `toLowerCase().trim()` and
      `trim().toLowerCase()` agree. */
  lemma TrimLowerCommute(s: string)
    ensures Trim(Lower(s)) == Lower(Trim(s))
  {
    var i := TrimShape(s);
    var t := Trim(s);
    var p, q := s[..i], s[i + |t|..];
    assert s == p + t + q;
    LowerAppend(p, t);
    LowerAppend(p + t, q);
    assert Lower(s) == Lower(p) + Lower(t) + Lower(q);
    LowerAllSpace(p);
    LowerAllSpace(q);
    LowerNoEdgeSpace(t);
    TrimUnique(Lower(p), Lower(t), Lower(q));
  }

  /** `s.includes(sub)`. */
  predicate Contains(s: string, sub: string)
    decreases |s|
  {
    if |s| < |sub| then false
    else s[..|sub|] == sub || Contains(s[1..], sub)
  }

  /** `Contains` means what it says: `sub` occurs at some position of `s`. */
  lemma {:induction false} ContainsAt(s: string, sub: string, k: nat)
    requires k + |sub| <= |s| && s[k..k + |sub|] == sub
    ensures Contains(s, sub)
    decreases k
  {
    if k > 0 {
      assert s[1..][k - 1..k - 1 + |sub|] == s[k..k + |sub|];
      ContainsAt(s[1..], sub, k - 1);
    }
  }

  lemma {:induction false} ContainsWitness(s: string, sub: string) returns (k: nat)
    requires Contains(s, sub)
    ensures k + |sub| <= |s| && s[k..k + |sub|] == sub
    decreases |s|
  {
    if s[..|sub|] == sub {
      k := 0;
    } else {
      var k' := ContainsWitness(s[1..], sub);
      k := k' + 1;
      assert s[k..k + |sub|] == s[1..][k'..k' + |sub|];
    }
  }

  function Digit(d: nat): char
    requires d < 10
  {
    "0123456789"[d]
  }

  predicate IsDigit(c: char) { '0' <= c <= '9' }

  /** `String(n)` for a non-negative integer: its decimal digits, with no
      leading zero. */
  function Decimal(n: nat): (r: string)
    ensures |r| >= 1
    ensures forall i :: 0 <= i < |r| ==> IsDigit(r[i])
    ensures (n < 10) == (|r| == 1)
    ensures (r[0] == '0') == (n == 0)
  {
    if n < 10 then [Digit(n)] else Decimal(n / 10) + [Digit(n % 10)]
  }

  /** The number a string of decimal digits denotes, most significant
      digit first. */
  function DigitsValue(s: string): nat
    requires forall i :: 0 <= i < |s| ==> IsDigit(s[i])
    decreases |s|
  {
    if s == [] then 0
    else
      assert forall i :: 0 <= i < |s| - 1 ==> s[..|s| - 1][i] == s[i];
      assert IsDigit(s[|s| - 1]);
      10 * DigitsValue(s[..|s| - 1]) + (s[|s| - 1] as int - '0' as int)
  }

  /** Reading the digits of `Decimal(n)` back gives `n`. */
  lemma {:induction false} DecimalValue(n: nat)
    ensures DigitsValue(Decimal(n)) == n
    decreases n
  {
    if n >= 10 {
      DecimalValue(n / 10);
      var r := Decimal(n);
      assert r[..|r| - 1] == Decimal(n / 10);
    }
  }
}
