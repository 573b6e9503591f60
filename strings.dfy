/**
 * String helpers shared by the models: the JavaScript notions of trimming,
 * splitting, joining and comparing strings that the server and the client
 * rely on, written once and proved once.
 */
module Strings {

  /** The characters JavaScript's `String.prototype.trim` removes
      (WhiteSpace and LineTerminator of ECMA-262). */
  predicate IsWhitespace(c: char)
  {
    || c == '\t' || c == '\n' || c == '\U{000B}' || c == '\U{000C}' || c == '\r'
    || c == ' ' || c == '\U{00A0}' || c == '\U{1680}'
    || ('\U{2000}' <= c <= '\U{200A}')
    || c == '\U{2028}' || c == '\U{2029}' || c == '\U{202F}' || c == '\U{205F}'
    || c == '\U{3000}' || c == '\U{FEFF}'
  }

  /** The characters a JavaScript regular expression `.` does not match. */
  predicate IsLineTerminator(c: char)
  {
    c == '\n' || c == '\r' || c == '\U{2028}' || c == '\U{2029}'
  }

  /** Drops leading whitespace: the result is a suffix of `s`. */
  function TrimStart(s: string): (r: string)
    ensures |r| <= |s| && r == s[|s| - |r|..]
    ensures forall k :: 0 <= k < |s| - |r| ==> IsWhitespace(s[k])
    ensures r == [] || !IsWhitespace(r[0])
  {
    if s != [] && IsWhitespace(s[0]) then TrimStart(s[1..]) else s
  }

  /** Drops trailing whitespace: the result is a prefix of `s`. */
  function TrimEnd(s: string): (r: string)
    ensures |r| <= |s| && r == s[..|r|]
    ensures forall k :: |r| <= k < |s| ==> IsWhitespace(s[k])
    ensures r == [] || !IsWhitespace(r[|r| - 1])
  {
    if s != [] && IsWhitespace(s[|s| - 1]) then TrimEnd(s[..|s| - 1]) else s
  }

  /** Neither starts nor ends with whitespace. */
  predicate Trimmed(s: string)
  {
    s == [] || (!IsWhitespace(s[0]) && !IsWhitespace(s[|s| - 1]))
  }

  /** JavaScript `s.trim()`. */
  function Trim(s: string): (r: string)
    ensures Trimmed(r)
  {
    var t := TrimStart(s);
    assert TrimEnd(t) == [] || TrimEnd(t)[0] == t[0];
    TrimEnd(t)
  }

  /** Trimming a trimmed string changes nothing, so trimming twice is trimming once. */
  lemma TrimIdempotent(s: string)
    ensures Trimmed(s) ==> Trim(s) == s
    ensures Trim(Trim(s)) == Trim(s)
  {
    var t := Trim(s);
    assert TrimStart(t) == t;
    assert TrimEnd(t) == t;
    if Trimmed(s) {
      assert TrimStart(s) == s;
      assert TrimEnd(s) == s;
    }
  }

  /** `Trim(s)` is the infix `s[i..j]` left once the whitespace around it is cut off. */
  lemma TrimIsInfix(s: string) returns (i: nat, j: nat)
    ensures i <= j <= |s| && Trim(s) == s[i..j]
    ensures forall k :: 0 <= k < i ==> IsWhitespace(s[k])
    ensures forall k :: j <= k < |s| ==> IsWhitespace(s[k])
  {
    var t := TrimStart(s);
    var r := TrimEnd(t);
    i := |s| - |t|;
    j := i + |r|;
    assert t == s[i..];
    assert r == s[i..][..|r|];
    assert s[i..][..|r|] == s[i..j];
    TrimEndTail(s, t, r, i, j);
  }

  lemma TrimEndTail(s: string, t: string, r: string, i: nat, j: nat)
    requires i <= |s| && t == s[i..] && r == TrimEnd(t) && j == i + |r|
    ensures forall k :: j <= k < |s| ==> IsWhitespace(s[k])
  {
    forall k | j <= k < |s| ensures IsWhitespace(s[k]) {
      assert s[k] == t[k - i];
    }
  }

  /** A string trims to the empty string exactly when every character is whitespace. */
  lemma TrimEmptyIff(s: string)
    ensures Trim(s) == [] <==> forall k :: 0 <= k < |s| ==> IsWhitespace(s[k])
  {
    var i, j := TrimIsInfix(s);
    if Trim(s) != [] {
      assert Trim(s)[0] == s[i];
    }
  }

  function LowerChar(c: char): char
  {
    if 'A' <= c <= 'Z' then (c as int + 32) as char else c
  }

  /** `s.toLowerCase()` restricted to ASCII letters. */
  function ToLowerAscii(s: string): (r: string)
    ensures |r| == |s|
    ensures forall k :: 0 <= k < |s| ==> r[k] == LowerChar(s[k])
  {
    seq(|s|, k requires 0 <= k < |s| => LowerChar(s[k]))
  }

  predicate StartsWith(s: string, prefix: string)
  {
    |prefix| <= |s| && s[..|prefix|] == prefix
  }

  predicate EndsWith(s: string, suffix: string)
  {
    |suffix| <= |s| && s[|s| - |suffix|..] == suffix
  }

  /** `pat` occurs in `s` at position `i`. */
  predicate OccursAt(s: string, pat: string, i: int)
  {
    0 <= i && i + |pat| <= |s| && s[i..i + |pat|] == pat
  }

  /** JavaScript `s.includes(pat)`, computed by a left-to-right scan. */
  function Contains(s: string, pat: string): (b: bool)
    ensures b <==> exists i :: OccursAt(s, pat, i)
  {
    if |s| < |pat| then
      false
    else if s[..|pat|] == pat then
      assert OccursAt(s, pat, 0);
      true
    else
      var b := Contains(s[1..], pat);
      OccursShift(s, pat);
      assert !OccursAt(s, pat, 0);
      b
  }

  /** An occurrence past position 0 is an occurrence in the tail. */
  lemma OccursShift(s: string, pat: string)
    requires s != []
    ensures forall i :: 1 <= i ==> (OccursAt(s, pat, i) <==> OccursAt(s[1..], pat, i - 1))
    ensures forall j :: 0 <= j ==> (OccursAt(s[1..], pat, j) <==> OccursAt(s, pat, j + 1))
  {
    forall i | 1 <= i
      ensures OccursAt(s, pat, i) <==> OccursAt(s[1..], pat, i - 1)
    {
      if i + |pat| <= |s| {
        assert s[1..][i - 1..i - 1 + |pat|] == s[1 + (i - 1)..1 + (i - 1) + |pat|];
        assert s[i..i + |pat|] == s[1..][i - 1..i - 1 + |pat|];
      }
    }
    forall j | 0 <= j
      ensures OccursAt(s[1..], pat, j) <==> OccursAt(s, pat, j + 1)
    {
      assert OccursAt(s, pat, j + 1) <==> OccursAt(s[1..], pat, j + 1 - 1);
    }
  }

  /** JavaScript `parts.join(sep)`. */
  function Join(parts: seq<string>, sep: string): string
  {
    if |parts| == 0 then ""
    else if |parts| == 1 then parts[0]
    else parts[0] + sep + Join(parts[1..], sep)
  }

  /** JavaScript `s.split(c)` for a one-character separator. */
  function Split(s: string, c: char): (parts: seq<string>)
    ensures |parts| >= 1
    ensures forall p :: p in parts ==> c !in p
  {
    if s == [] then [""]
    else
      var rest := Split(s[1..], c);
      if s[0] == c then [""] + rest
      else [[s[0]] + rest[0]] + rest[1..]
  }

  /** Splitting on a character and joining with it again gives back the string. */
  lemma {:induction false} JoinSplit(s: string, c: char)
    ensures Join(Split(s, c), [c]) == s
  {
    if s != [] {
      var rest := Split(s[1..], c);
      JoinSplit(s[1..], c);
      if s[0] == c {
        assert Split(s, c) == [""] + rest;
      } else {
        var parts := Split(s, c);
        assert parts == [[s[0]] + rest[0]] + rest[1..];
        if |rest| == 1 {
          assert Join(parts, [c]) == [s[0]] + rest[0];
        } else {
          assert parts[1..] == rest[1..];
          assert Join(rest, [c]) == rest[0] + [c] + Join(rest[1..], [c]);
        }
      }
    }
  }

  /** Joining pieces that do not contain `c` and splitting again gives back the pieces. */
  lemma {:induction false} SplitJoin(parts: seq<string>, c: char)
    requires |parts| >= 1
    requires forall p :: p in parts ==> c !in p
    ensures Split(Join(parts, [c]), c) == parts
  {
    if |parts| == 1 {
      SplitNoSeparator(parts[0], c);
    } else {
      SplitJoin(parts[1..], c);
      SplitPrefix(parts[0], Join(parts[1..], [c]), c);
    }
  }

  lemma {:induction false} SplitNoSeparator(s: string, c: char)
    requires c !in s
    ensures Split(s, c) == [s]
  {
    if s != [] {
      SplitNoSeparator(s[1..], c);
      assert [s[0]] + s[1..] == s;
    }
  }

  /** Splitting `p + [c] + t` where `p` has no `c` yields `p` followed by the pieces of `t`. */
  lemma {:induction false} SplitPrefix(p: string, t: string, c: char)
    requires c !in p
    ensures Split(p + [c] + t, c) == [p] + Split(t, c)
  {
    var s := p + [c] + t;
    if p == [] {
      assert s[1..] == t;
    } else {
      assert s[0] == p[0] && p[0] != c;
      assert s[1..] == p[1..] + [c] + t;
      SplitPrefix(p[1..], t, c);
      assert [p[0]] + p[1..] == p;
    }
  }

  /** The number of occurrences of `c` in `s`. */
  function CountChar(s: string, c: char): nat
  {
    if s == [] then 0 else (if s[0] == c then 1 else 0) + CountChar(s[1..], c)
  }

  /** Splitting on `c` gives one more piece than there are `c`s. */
  lemma {:induction false} SplitLength(s: string, c: char)
    ensures |Split(s, c)| == CountChar(s, c) + 1
  {
    if s != [] {
      SplitLength(s[1..], c);
    }
  }

  /** JavaScript `s.split(sep)` for a separator string of length at least one:
      the string is cut at each leftmost, non-overlapping occurrence of `sep`. */
  function SplitOn(s: string, sep: string): (parts: seq<string>)
    requires |sep| > 0
    ensures |parts| >= 1
  {
    if |s| < |sep| then [s]
    else if s[..|sep|] == sep then [""] + SplitOn(s[|sep|..], sep)
    else
      var rest := SplitOn(s[1..], sep);
      [[s[0]] + rest[0]] + rest[1..]
  }

  /** Splitting on a separator string and joining with it again gives back the string. */
  lemma {:induction false} JoinSplitOn(s: string, sep: string)
    requires |sep| > 0
    ensures Join(SplitOn(s, sep), sep) == s
  {
    if |s| >= |sep| {
      if s[..|sep|] == sep {
        var rest := SplitOn(s[|sep|..], sep);
        JoinSplitOn(s[|sep|..], sep);
        assert s == sep + s[|sep|..];
      } else {
        var rest := SplitOn(s[1..], sep);
        JoinSplitOn(s[1..], sep);
        var parts := SplitOn(s, sep);
        if |rest| == 1 {
          assert Join(parts, sep) == [s[0]] + rest[0];
        } else {
          assert parts[1..] == rest[1..];
          assert Join(rest, sep) == rest[0] + sep + Join(rest[1..], sep);
        }
      }
    }
  }

  /** Lexicographic order by character code, as `<=` on JavaScript strings. */
  predicate StrLe(a: string, b: string)
  {
    a == [] || (b != [] && (a[0] < b[0] || (a[0] == b[0] && StrLe(a[1..], b[1..]))))
  }

  lemma {:induction false} StrLeRefl(a: string)
    ensures StrLe(a, a)
  {
    if a != [] {
      StrLeRefl(a[1..]);
    }
  }

  lemma {:induction false} StrLeTotal(a: string, b: string)
    ensures StrLe(a, b) || StrLe(b, a)
  {
    if a != [] && b != [] && a[0] == b[0] {
      StrLeTotal(a[1..], b[1..]);
    }
  }

  lemma {:induction false} StrLeTrans(a: string, b: string, c: string)
    requires StrLe(a, b) && StrLe(b, c)
    ensures StrLe(a, c)
  {
    if a != [] && b != [] && c != [] && a[0] == b[0] && b[0] == c[0] {
      StrLeTrans(a[1..], b[1..], c[1..]);
    }
  }

  lemma {:induction false} StrLeAntisym(a: string, b: string)
    requires StrLe(a, b) && StrLe(b, a)
    ensures a == b
  {
    if a != [] && b != [] {
      StrLeAntisym(a[1..], b[1..]);
      assert a == [a[0]] + a[1..];
      assert b == [b[0]] + b[1..];
    }
  }
  /** The digit character for `d`. */
  function DigitChar(d: nat): (c: char)
    requires d < 10
    ensures '0' <= c <= '9' && c as int - '0' as int == d
  {
    ('0' as int + d) as char
  }

  predicate AllDigits(s: string)
  {
    forall k :: 0 <= k < |s| ==> '0' <= s[k] <= '9'
  }

  /** `n.toString()` for a non-negative integer: decimal digits without
      leading zeros. */
  function NatToString(n: nat): (r: string)
    decreases n
    ensures r != [] && AllDigits(r)
    ensures r[0] == '0' ==> r == "0"
  {
    if n < 10 then [DigitChar(n)] else NatToString(n / 10) + [DigitChar(n % 10)]
  }

  /** The value of a string of decimal digits. */
  function ParseNat(s: string): nat
    requires AllDigits(s)
  {
    if s == [] then 0 else ParseNat(s[..|s| - 1]) * 10 + (s[|s| - 1] as int - '0' as int)
  }

  /** Reading the digits back gives the number: `NatToString` is injective. */
  lemma {:induction false} ParseNatToString(n: nat)
    decreases n
    ensures ParseNat(NatToString(n)) == n
  {
    if n >= 10 {
      var r := NatToString(n);
      assert r[..|r| - 1] == NatToString(n / 10);
      ParseNatToString(n / 10);
    }
  }

  /** `n.toString()` for an integer. */
  function IntToString(n: int): (r: string)
    ensures r != []
    ensures n < 0 <==> r[0] == '-'
  {
    if n < 0 then "-" + NatToString(-n) else NatToString(n)
  }
}
