/**
 * The scoped CSS class names of the frontend build: a 53-bit string hash
 * (two 32-bit multiply-xor lanes over UTF-16 code units), its base-62
 * rendering, and the production name `x` + four base-62 characters.
 */
module ScopedName {
  import opened Strings

  /** The 62 digits: decimal digits, then lower-case, then upper-case letters. */
  const BASE62_DIGITS := "0123456789" + "abcdefghijklmnopqrstuvwxyz" + "ABCDEFGHIJKLMNOPQRSTUVWXYZ"

  /** The code of the digit at each index. */
  lemma DigitCode(k: nat)
    requires k < 62
    ensures |BASE62_DIGITS| == 62
    ensures BASE62_DIGITS[k] as int
      == if k < 10 then '0' as int + k else if k < 36 then 'a' as int + (k - 10) else 'A' as int + (k - 36)
  {
    if k < 10 {
      DecimalCode(k);
    } else if k < 36 {
      LowerCode(k - 10);
    } else {
      UpperCode(k - 36);
    }
  }

  lemma DecimalCode(k: nat)
    requires k < 10
    ensures "0123456789"[k] as int == '0' as int + k
  {
  }

  lemma LowerCode(k: nat)
    requires k < 26
    ensures "abcdefghijklmnopqrstuvwxyz"[k] as int == 'a' as int + k
  {
  }

  lemma UpperCode(k: nat)
    requires k < 26
    ensures "ABCDEFGHIJKLMNOPQRSTUVWXYZ"[k] as int == 'A' as int + k
  {
  }

  predicate IsBase62Digit(c: char)
  {
    '0' <= c <= '9' || 'a' <= c <= 'z' || 'A' <= c <= 'Z'
  }

  /** The index of a digit in `BASE62_DIGITS`. */
  function DigitValue(c: char): (k: nat)
    requires IsBase62Digit(c)
    ensures k < 62 && BASE62_DIGITS[k] == c
  {
    var k := if c <= '9' then c as int - '0' as int
      else if c >= 'a' then c as int - 'a' as int + 10
      else c as int - 'A' as int + 36;
    DigitCode(k);
    k
  }

  /** The digit at index `k` has value `k`. */
  lemma DigitValueOfDigit(k: nat)
    requires k < 62
    ensures IsBase62Digit(BASE62_DIGITS[k]) && DigitValue(BASE62_DIGITS[k]) == k
  {
    DigitCode(k);
  }

  // Base 62

  /** The digits of `n`, most significant first. */
  function Base62(n: nat): (r: string)
    decreases n
    ensures |r| >= 1
    ensures r[|r| - 1] == BASE62_DIGITS[n % 62]
  {
    if n < 62 then [BASE62_DIGITS[n]] else Base62(n / 62) + [BASE62_DIGITS[n % 62]]
  }

  /** `toBase62`: `'0'` for zero; otherwise the loop prepends the digit of
      `n % 62` and divides `n` by 62 until it reaches zero. */
  method ToBase62(n: nat) returns (result: string)
    ensures result == Base62(n)
  {
    if n == 0 {
      DigitCode(0);
      assert Base62(0) == [BASE62_DIGITS[0]] == "0";
      return "0";
    }
    result := "";
    var m: nat := n;
    while m > 0
      invariant m == 0 ==> result == Base62(n)
      invariant m > 0 ==> Base62(m) + result == Base62(n)
      decreases m
    {
      if m >= 62 {
        Base62Step(m, result);
      }
      result := [BASE62_DIGITS[m % 62]] + result;
      m := m / 62;
    }
  }

  /** One turn of `toBase62`'s loop past the last digit: the digit of
      `m % 62` goes in front and `m / 62` is left to write. */
  lemma Base62Step(m: nat, result: string)
    requires m >= 62
    ensures Base62(m) + result == Base62(m / 62) + ([BASE62_DIGITS[m % 62]] + result)
  {
    var digit := [BASE62_DIGITS[m % 62]];
    assert Base62(m) == Base62(m / 62) + digit;
    Regroup(Base62(m / 62), digit, result);
  }

  lemma Regroup(a: string, b: string, c: string)
    ensures (a + b) + c == a + (b + c)
  {
  }

  /** Reads a string of base-62 digits as a number, by index in `BASE62_DIGITS`. */
  function FromBase62(s: string): nat
    requires forall k :: 0 <= k < |s| ==> IsBase62Digit(s[k])
  {
    if s == [] then 0 else FromBase62(s[..|s| - 1]) * 62 + DigitValue(s[|s| - 1])
  }

  /** Zero is `"0"`; every character is a digit; a positive number has no
      leading zero. */
  lemma {:induction false} Base62Digits(n: nat)
    decreases n
    ensures n == 0 ==> Base62(n) == "0"
    ensures forall k :: 0 <= k < |Base62(n)| ==> IsBase62Digit(Base62(n)[k])
    ensures n > 0 ==> Base62(n)[0] != '0'
  {
    if n < 62 {
      DigitCode(n);
    } else {
      Base62Digits(n / 62);
      DigitCode(n % 62);
    }
  }

  /** Reading the digits back gives the number. */
  lemma {:induction false} Base62RoundTrip(n: nat)
    decreases n
    ensures forall k :: 0 <= k < |Base62(n)| ==> IsBase62Digit(Base62(n)[k])
    ensures FromBase62(Base62(n)) == n
  {
    Base62Digits(n);
    var s := Base62(n);
    if n < 62 {
      DigitValueOfDigit(n);
      assert s[..0] == [];
    } else {
      Base62RoundTrip(n / 62);
      DigitValueOfDigit(n % 62);
      assert s[..|s| - 1] == Base62(n / 62);
    }
  }

  function Pow62(e: nat): nat
  {
    if e == 0 then 1 else 62 * Pow62(e - 1)
  }

  /** A positive number has as many digits as its magnitude says. */
  lemma {:induction false} Base62Length(n: nat)
    requires n > 0
    decreases n
    ensures |Base62(n)| >= 1
    ensures Pow62(|Base62(n)| - 1) <= n < Pow62(|Base62(n)|)
  {
    if n >= 62 {
      var q, d := n / 62, n % 62;
      assert n == 62 * q + d && d < 62;
      Base62Length(q);
      var l := |Base62(q)|;
      assert |Base62(n)| == l + 1;
      MulMono(Pow62(l - 1), q);
      MulMono(q + 1, Pow62(l));
    }
  }

  lemma MulMono(a: nat, b: nat)
    requires a <= b
    ensures 62 * a <= 62 * b
  {
  }

  // The hash

  /** `Math.imul`: the low 32 bits of the product. */
  function Imul(a: bv32, b: bv32): bv32
  {
    a * b
  }

  /** The two lanes after one code unit. */
  function HashStep(h1: bv32, h2: bv32, ch: bv16): (bv32, bv32)
  {
    (Imul(h1 ^ (ch as bv32), 2654435761), Imul(h2 ^ (ch as bv32), 1597334677))
  }

  /** The two lanes after the loop over `units`. */
  function Lanes(units: seq<bv16>, seed: bv32): (bv32, bv32)
  {
    if units == [] then (0xdeadbeef ^ seed, 0x41c6ce57 ^ seed)
    else
      var h := Lanes(units[..|units| - 1], seed);
      HashStep(h.0, h.1, units[|units| - 1])
  }

  /** The final avalanche of both lanes; the second uses the first's new value. */
  function Avalanche(h1: bv32, h2: bv32): (bv32, bv32)
  {
    var a := Imul(h1 ^ (h1 >> 16), 2246822507) ^ Imul(h2 ^ (h2 >> 13), 3266489909);
    var b := Imul(h2 ^ (h2 >> 16), 2246822507) ^ Imul(a ^ (a >> 13), 3266489909);
    (a, b)
  }

  /** `4294967296 * (2097151 & h2) + (h1 >>> 0)`: the low 21 bits of the
      second lane above the 32 bits of the first, read as unsigned. */
  function Combine(h1: bv32, h2: bv32): (r: nat)
    ensures r < 0x20_0000_0000_0000
  {
    var high: nat := (h2 as nat) % 0x20_0000;
    var low: nat := h1 as nat;
    assert low < 0x1_0000_0000;
    0x1_0000_0000 * high + low
  }

  /** `hash(str, seed)` over the UTF-16 code units of `str`. */
  function HashOf(units: seq<bv16>, seed: bv32): (r: nat)
    ensures r < 0x20_0000_0000_0000
  {
    var h := Lanes(units, seed);
    var f := Avalanche(h.0, h.1);
    Combine(f.0, f.1)
  }

  /** `hash`: the loop folds each code unit into both lanes, then both lanes
      are mixed once more and combined. The result is an integer below 2^53,
      exact as a JavaScript number. */
  method Hash(units: seq<bv16>, seed: bv32) returns (r: nat)
    ensures r == HashOf(units, seed)
    ensures r < 0x20_0000_0000_0000
  {
    var h1, h2 := HashLoop(units, seed);
    var mixed := Avalanche(h1, h2);
    r := Combine(mixed.0, mixed.1);
  }

  /** The loop of `hash` over the code units. */
  method HashLoop(units: seq<bv16>, seed: bv32) returns (h1: bv32, h2: bv32)
    ensures (h1, h2) == Lanes(units, seed)
  {
    h1 := 0xdeadbeef ^ seed;
    h2 := 0x41c6ce57 ^ seed;
    for i := 0 to |units|
      invariant (h1, h2) == Lanes(units[..i], seed)
    {
      assert units[..i + 1][..i] == units[..i];
      var step := HashStep(h1, h2, units[i]);
      h1, h2 := step.0, step.1;
    }
    assert units[..|units|] == units;
  }

  /** `charCodeAt` over a string: one code unit per character of the basic
      plane, a surrogate pair for the others. */
  function Utf16(s: string): (units: seq<bv16>)
    ensures |units| >= |s|
  {
    if s == [] then []
    else
      var c := s[0] as int;
      var here: seq<bv16> :=
        if c < 0x1_0000 then [c as bv16]
        else [(0xD800 + (c - 0x1_0000) / 0x400) as bv16, (0xDC00 + (c - 0x1_0000) % 0x400) as bv16];
      here + Utf16(s[1..])
  }

  /** Every character is in the basic plane, below U+10000. */
  predicate InBasicPlane(s: string)
  {
    forall k :: 0 <= k < |s| ==> (s[k] as int) < 0x1_0000
  }

  /** A string of the basic plane has one code unit per character, the
      character's code taken as a 16-bit unit. */
  lemma {:induction false} Utf16BasicPlane(s: string)
    requires InBasicPlane(s)
    ensures |Utf16(s)| == |s|
    ensures forall k :: 0 <= k < |s| ==> Utf16(s)[k] == (s[k] as int) as bv16
  {
    if s != [] {
      Utf16BasicPlane(s[1..]);
      var rest := Utf16(s[1..]);
      assert Utf16(s) == [(s[0] as int) as bv16] + rest;
      forall k | 0 < k < |s|
        ensures Utf16(s)[k] == (s[k] as int) as bv16
      {
        assert Utf16(s)[k] == rest[k - 1] && s[k] == s[1..][k - 1];
      }
    }
  }

  // Scoped names

  /** `[\\/.?&=]`: the characters the id turns into `-`. */
  predicate IsSeparator(c: char)
  {
    c == '\\' || c == '/' || c == '.' || c == '?' || c == '&' || c == '='
  }

  /** `replace(/[\\\/\.\?&=]/g, '-')`. */
  function ReplaceSeparators(s: string): (r: string)
    ensures |r| == |s|
    ensures forall k :: 0 <= k < |r| ==> r[k] == (if IsSeparator(s[k]) then '-' else s[k])
    ensures forall c :: c in r ==> !IsSeparator(c)
    ensures (forall c :: c in s ==> !IsSeparator(c)) ==> r == s
  {
    seq(|s|, k requires 0 <= k < |s| => if IsSeparator(s[k]) then '-' else s[k])
  }

  /** `replace(/(src-|vue-)/g, '')`: one left-to-right pass dropping each
      occurrence of `src-` or `vue-`. */
  function DropPrefixes(s: string): (r: string)
    ensures |r| <= |s|
    ensures forall c :: c in r ==> c in s
  {
    if |s| >= 4 && (s[..4] == "src-" || s[..4] == "vue-") then DropPrefixes(s[4..])
    else if s == [] then []
    else [s[0]] + DropPrefixes(s[1..])
  }

  /** A string in which neither `src-` nor `vue-` occurs is left as it is. */
  lemma {:induction false} DropPrefixesPlain(s: string)
    requires !Contains(s, "src-") && !Contains(s, "vue-")
    ensures DropPrefixes(s) == s
  {
    if s != [] {
      assert !OccursAt(s, "src-", 0) && !OccursAt(s, "vue-", 0);
      OccursShift(s, "src-");
      OccursShift(s, "vue-");
      assert !Contains(s[1..], "src-") && !Contains(s[1..], "vue-");
      DropPrefixesPlain(s[1..]);
      assert s == [s[0]] + s[1..];
    }
  }

  /** A leading `src-` or `vue-` is dropped and the rest read as if it
      started the string. */
  lemma DropPrefixesLeading(p: string, t: string)
    requires p == "src-" || p == "vue-"
    ensures DropPrefixes(p + t) == DropPrefixes(t)
  {
    assert (p + t)[..4] == p && (p + t)[4..] == t;
  }

  /** The development name: the file's path, relative to the frontend package
      (`path.relative`, which is not part of this model, given as `relative`),
      without its query, then `-` and the class name, with separators turned
      into `-` and `src-`/`vue-` dropped. */
  function ScopedId(relative: string -> string, filename: string, name: string): (id: string)
    ensures forall c :: c in id ==> !IsSeparator(c)
  {
    var path := relative(Split(filename, '?')[0]);
    var replaced := ReplaceSeparators(path + "-" + name);
    DropPrefixes(replaced)
  }

  /** The production name of a hash: `x` and its first four base-62 characters. */
  function ProductionName(h: nat): (r: string)
    ensures 2 <= |r| <= 5 && r[0] == 'x'
  {
    var digits := Base62(h);
    "x" + digits[..if |digits| < 4 then |digits| else 4]
  }

  /** `generateScopedName`: in production the name of the id's hash;
      otherwise the id itself. */
  function GenerateScopedName(relative: string -> string, filename: string, name: string, production: bool): (r: string)
    ensures production ==> 2 <= |r| <= 5 && r[0] == 'x'
    ensures !production ==> forall c :: c in r ==> !IsSeparator(c)
  {
    var id := ScopedId(relative, filename, name);
    if production then ProductionName(HashOf(Utf16(id), 0)) else id
  }

  /** A production name is `x` followed by one to four base-62 characters,
      the leading characters of the hash's rendering. */
  lemma ProductionNameShape(h: nat)
    ensures var r := ProductionName(h);
      && 2 <= |r| <= 5
      && r[0] == 'x'
      && (forall k :: 1 <= k < |r| ==> IsBase62Digit(r[k]))
      && r[1..] <= Base62(h)
  {
    Base62Digits(h);
    var digits := Base62(h);
    var r := ProductionName(h);
    assert r[1..] == digits[..|r| - 1];
  }
}
