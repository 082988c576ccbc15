/**
 * The string operations of the JavaScript standard library that the core uses:
 * `trim`, `split` on one character, `join`, `startsWith`, `includes`,
 * ASCII `toLowerCase` and decimal `toString` of integers.
 */
module Strings {

  /** JavaScript's `\s` class: the WhiteSpace and LineTerminator code points. */
  predicate IsSpace(c: char) {
    c == ' ' || c == '\t' || c == '\n' || c == '\U{000B}' || c == '\U{000C}' || c == '\r'
    || c == '\U{00A0}' || c == '\U{1680}' || ('\U{2000}' <= c <= '\U{200A}')
    || c == '\U{2028}' || c == '\U{2029}' || c == '\U{202F}' || c == '\U{205F}'
    || c == '\U{3000}' || c == '\U{FEFF}'
  }

  /** JavaScript's `\w` class: `[A-Za-z0-9_]`. */
  predicate IsWordChar(c: char) {
    ('a' <= c <= 'z') || ('A' <= c <= 'Z') || ('0' <= c <= '9') || c == '_'
  }

  predicate IsUpper(c: char) {
    'A' <= c <= 'Z'
  }

  /** `toLowerCase` on one character, for the ASCII range. */
  function Lower(c: char): (r: char)
    ensures !IsUpper(r)
    ensures IsWordChar(r) <==> IsWordChar(c)
    ensures IsSpace(r) <==> IsSpace(c)
    ensures !IsUpper(c) ==> r == c
  {
    if IsUpper(c) then (c as int + 32) as char else c
  }

  function LowerString(s: string): (r: string)
    ensures |r| == |s|
    ensures forall i :: 0 <= i < |s| ==> r[i] == Lower(s[i])
  {
    seq(|s|, i requires 0 <= i < |s| => Lower(s[i]))
  }

  /** `s.trimStart()`: drop the leading whitespace. */
  function TrimStart(s: string): (r: string)
    ensures |r| <= |s| && r == s[|s| - |r|..]
    ensures r == [] || !IsSpace(r[0])
    ensures forall i :: 0 <= i < |s| - |r| ==> IsSpace(s[i])
  {
    if s != [] && IsSpace(s[0]) then TrimStart(s[1..]) else s
  }

  /** `s.trimEnd()`: drop the trailing whitespace. */
  function TrimEnd(s: string): (r: string)
    ensures |r| <= |s| && r == s[..|r|]
    ensures r == [] || !IsSpace(r[|r| - 1])
    ensures forall i :: |r| <= i < |s| ==> IsSpace(s[i])
  {
    if s != [] && IsSpace(s[|s| - 1]) then TrimEnd(s[..|s| - 1]) else s
  }

  /** `s.trim()`: the longest infix that neither starts nor ends with whitespace. */
  function Trim(s: string): (r: string)
    ensures |r| <= |s|
    ensures r == [] || (!IsSpace(r[0]) && !IsSpace(r[|r| - 1]))
    ensures (forall i :: 0 <= i < |s| ==> IsSpace(s[i])) <==> r == []
  {
    TrimEnd(TrimStart(s))
  }

  /**
   * `trim` keeps an infix: the result sits in `s` after the leading whitespace
   * that `TrimStart` drops, and only whitespace surrounds it.
   */
  lemma TrimInfix(s: string) returns (i: nat)
    ensures i + |Trim(s)| <= |s| && Trim(s) == s[i..i + |Trim(s)|]
    ensures forall j :: 0 <= j < i ==> IsSpace(s[j])
    ensures forall j :: i + |Trim(s)| <= j < |s| ==> IsSpace(s[j])
  {
    var t := TrimStart(s);
    TrimSpan(s, t, TrimEnd(t));
    i := |s| - |t|;
  }

  /**
   * A suffix `t` of `s` after whitespace, cut to a prefix `r` before
   * whitespace, is the infix of `s` at `|s| - |t|`.
   */
  lemma TrimSpan(s: string, t: string, r: string)
    requires |t| <= |s| && t == s[|s| - |t|..] && forall j :: 0 <= j < |s| - |t| ==> IsSpace(s[j])
    requires |r| <= |t| && r == t[..|r|] && forall j :: |r| <= j < |t| ==> IsSpace(t[j])
    ensures var i := |s| - |t|;
      0 <= i <= |s| - |r| && r == s[i..i + |r|] &&
      (forall j :: 0 <= j < i ==> IsSpace(s[j])) && (forall j :: i + |r| <= j < |s| ==> IsSpace(s[j]))
  {
    var i := |s| - |t|;
    forall j | i + |r| <= j < |s|
      ensures IsSpace(s[j])
    {
      assert s[j] == t[j - i];
    }
  }

  /** Trimming twice is trimming once. */
  lemma TrimIdempotent(s: string)
    ensures Trim(Trim(s)) == Trim(s)
  {
    var r := Trim(s);
    if r != [] {
      assert TrimStart(r) == r;
      assert TrimEnd(r) == r;
    }
  }

  /** Trimming only removes characters. */
  lemma TrimKeeps(s: string)
    ensures forall c :: c in Trim(s) ==> c in s
  {
    var t := TrimStart(s);
    assert t == s[|s| - |t|..];
    assert Trim(s) == t[..|Trim(s)|];
    forall c | c in Trim(s)
      ensures c in s
    {
      var i :| 0 <= i < |Trim(s)| && Trim(s)[i] == c;
      assert t[i] == c;
      assert s[|s| - |t| + i] == c;
    }
  }

  predicate StartsWith(s: string, prefix: string) {
    |prefix| <= |s| && s[..|prefix|] == prefix
  }

  /** `s.includes(sub)`. */
  predicate Contains(s: string, sub: string)
    decreases |s|
  {
    StartsWith(s, sub) || (s != [] && Contains(s[1..], sub))
  }

  lemma ContainsAt(s: string, sub: string, i: nat)
    requires i + |sub| <= |s| && s[i..i + |sub|] == sub
    ensures Contains(s, sub)
  {
    if i > 0 {
      assert s[1..][i - 1..i - 1 + |sub|] == sub;
      ContainsAt(s[1..], sub, i - 1);
    }
  }

  function CountChar(s: string, c: char): (n: nat)
    ensures n <= |s|
    ensures n == 0 <==> c !in s
  {
    if s == [] then 0 else (if s[0] == c then 1 else 0) + CountChar(s[1..], c)
  }

  /** The index of the first occurrence of `c` in `s`. */
  function IndexOfChar(s: string, c: char): (i: nat)
    requires c in s
    ensures i < |s| && s[i] == c && c !in s[..i]
  {
    if s[0] == c then 0 else 1 + IndexOfChar(s[1..], c)
  }

  /** `s.split(sep)` for a one-character separator: the pieces between separators, empty ones included. */
  function Split(s: string, sep: char): (parts: seq<string>)
    ensures |parts| >= 1
    ensures forall k :: 0 <= k < |parts| ==> sep !in parts[k]
    decreases |s|
  {
    if sep !in s then [s]
    else
      var i := IndexOfChar(s, sep);
      [s[..i]] + Split(s[i + 1..], sep)
  }

  /** `parts.join(sep)`. */
  function Join(parts: seq<string>, sep: string): (r: string)
  {
    if parts == [] then ""
    else if |parts| == 1 then parts[0]
    else parts[0] + sep + Join(parts[1..], sep)
  }

  /** Splitting and joining again gives back the string, and there is one more piece than separators. */
  lemma SplitJoin(s: string, sep: char)
    ensures Join(Split(s, sep), [sep]) == s
    ensures |Split(s, sep)| == CountChar(s, sep) + 1
  {
    JoinSplit(s, sep);
    SplitCount(s, sep);
  }

  lemma {:induction false} JoinSplit(s: string, sep: char)
    ensures Join(Split(s, sep), [sep]) == s
    decreases |s|
  {
    if sep in s {
      var i := IndexOfChar(s, sep);
      var rest := s[i + 1..];
      JoinSplit(rest, sep);
      var parts := Split(s, sep);
      assert parts == [s[..i]] + Split(rest, sep);
      JoinCut(s, i, sep, parts, Split(rest, sep));
    }
  }

  /** Joining the piece before the separator at `i` with the pieces after it. */
  lemma JoinCut(s: string, i: nat, sep: char, parts: seq<string>, tail: seq<string>)
    requires i < |s| && s[i] == sep
    requires parts == [s[..i]] + tail && tail != [] && Join(tail, [sep]) == s[i + 1..]
    ensures Join(parts, [sep]) == s
  {
    assert parts[0] == s[..i] && parts[1..] == tail;
    assert Join(parts, [sep]) == s[..i] + [sep] + s[i + 1..];
    assert s == s[..i] + [sep] + s[i + 1..];
  }

  lemma {:induction false} SplitCount(s: string, sep: char)
    ensures |Split(s, sep)| == CountChar(s, sep) + 1
    decreases |s|
  {
    if sep in s {
      var i := IndexOfChar(s, sep);
      var rest := s[i + 1..];
      SplitCount(rest, sep);
      assert s == s[..i] + [sep] + rest;
      CountCharAppend(s[..i] + [sep], rest, sep);
      CountCharAppend(s[..i], [sep], sep);
    }
  }

  lemma {:induction false} CountCharAppend(a: string, b: string, c: char)
    ensures CountChar(a + b, c) == CountChar(a, c) + CountChar(b, c)
  {
    if a != [] {
      assert (a + b)[0] == a[0];
      assert (a + b)[1..] == a[1..] + b;
      CountCharAppend(a[1..], b, c);
    } else {
      assert a + b == b;
    }
  }

  function DigitChar(d: nat): (c: char)
    requires d < 10
  {
    "0123456789"[d]
  }

  /** `n.toString()` for a non-negative integer. */
  function NatToString(n: nat): (s: string)
    ensures |s| >= 1
    ensures forall i :: 0 <= i < |s| ==> '0' <= s[i] <= '9'
  {
    if n < 10 then [DigitChar(n)] else NatToString(n / 10) + [DigitChar(n % 10)]
  }

  /** `n.toString()` for an integer: a minus sign, then the digits of its magnitude. */
  function IntToString(n: int): (s: string)
    ensures |s| >= 1
    ensures forall i :: 0 <= i < |s| ==> ('0' <= s[i] <= '9') || s[i] == '-'
  {
    if n < 0 then "-" + NatToString(-n) else NatToString(n)
  }

  /** Different numbers print differently. */
  lemma {:induction false} NatToStringInjective(m: nat, n: nat)
    requires NatToString(m) == NatToString(n)
    ensures m == n
  {
    var sm, sn := NatToString(m), NatToString(n);
    if m < 10 && n < 10 {
      DigitCharInjective(m, n);
    } else if m >= 10 && n >= 10 {
      var pm, pn := NatToString(m / 10), NatToString(n / 10);
      assert sm == pm + [DigitChar(m % 10)] && sn == pn + [DigitChar(n % 10)];
      assert sm[..|sm| - 1] == pm && sn[..|sn| - 1] == pn;
      NatToStringInjective(m / 10, n / 10);
      assert sm[|sm| - 1] == DigitChar(m % 10) && sn[|sn| - 1] == DigitChar(n % 10);
      DigitCharInjective(m % 10, n % 10);
    }
  }

  /** The ten digits are distinct. */
  lemma DigitCharInjective(a: nat, b: nat)
    requires a < 10 && b < 10 && DigitChar(a) == DigitChar(b)
    ensures a == b
  {
    var digits := "0123456789";
    assert forall i :: 0 <= i < 10 ==> digits[i] as int == '0' as int + i;
  }
}
