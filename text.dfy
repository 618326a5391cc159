/** The JavaScript string operations the application relies on, written out on
    `seq<char>`: `trim`, `split`/`join` on one separator character, ASCII
    `toLowerCase`, `includes`, `slice(-n)`, number-to-string conversion and
    `parseInt` with its default radix. */
module Text {
  import opened Wrappers

  // ---------------------------------------------------------------------------
  // Truthiness of optional strings

  /** JavaScript truthiness of a string that may be missing: present and non-empty. */
  predicate Truthy(v: Option<string>) {
    v.Some? && v.value != ""
  }

  /** `v || fallback` */
  function OrElse(v: Option<string>, fallback: string): (r: string)
    ensures Truthy(v) ==> r == v.value
    ensures !Truthy(v) ==> r == fallback
  {
    if Truthy(v) then v.value else fallback
  }

  // ---------------------------------------------------------------------------
  // Whitespace and trim

  /** The characters `String.prototype.trim` removes: ECMAScript WhiteSpace and
      LineTerminator. */
  predicate IsSpace(c: char) {
    c == '\t' || c == '\n' || c == '\U{000B}' || c == '\U{000C}' || c == '\r' || c == ' ' ||
    c == '\U{00A0}' || c == '\U{1680}' || ('\U{2000}' <= c <= '\U{200A}') ||
    c == '\U{2028}' || c == '\U{2029}' || c == '\U{202F}' || c == '\U{205F}' ||
    c == '\U{3000}' || c == '\U{FEFF}'
  }

  /** Every character of `s` is whitespace (the empty string included). */
  predicate IsBlank(s: string) {
    forall k :: 0 <= k < |s| ==> IsSpace(s[k])
  }

  /** The number of whitespace characters `s` starts with. */
  function LeadingSpaces(s: string): (n: nat)
    ensures n <= |s|
    ensures forall k | 0 <= k < n :: IsSpace(s[k])
    ensures n < |s| ==> !IsSpace(s[n])
  {
    if |s| > 0 && IsSpace(s[0]) then 1 + LeadingSpaces(s[1..]) else 0
  }

  /** The number of whitespace characters `s` ends with. */
  function TrailingSpaces(s: string): (n: nat)
    ensures n <= |s|
    ensures forall k | |s| - n <= k < |s| :: IsSpace(s[k])
    ensures n < |s| ==> !IsSpace(s[|s| - 1 - n])
  {
    if |s| > 0 && IsSpace(s[|s| - 1]) then 1 + TrailingSpaces(s[..|s| - 1]) else 0
  }

  function TrimStart(s: string): (r: string)
    ensures |r| <= |s| && r == s[|s| - |r|..]
    ensures r == [] || !IsSpace(r[0])
    ensures IsBlank(s[..|s| - |r|])
  {
    s[LeadingSpaces(s)..]
  }

  function TrimEnd(s: string): (r: string)
    ensures |r| <= |s| && r == s[..|r|]
    ensures r == [] || !IsSpace(r[|r| - 1])
    ensures IsBlank(s[|r|..])
  {
    s[..|s| - TrailingSpaces(s)]
  }

  /** `s.trim()`: `s` with leading and trailing whitespace removed. The result
      neither starts nor ends with whitespace and is a piece of `s`. */
  function Trim(s: string): (r: string)
    ensures |r| <= |TrimStart(s)| <= |s|
    ensures r == [] || (!IsSpace(r[0]) && !IsSpace(r[|r| - 1]))
    ensures r == s[|s| - |TrimStart(s)|..][..|r|]
  {
    TrimEnd(TrimStart(s))
  }

  /** Only whitespace is cut off on either side of the trimmed string. */
  lemma TrimCutsOnlySpace(s: string)
    ensures var i := |s| - |TrimStart(s)|;
      i + |Trim(s)| <= |s| && IsBlank(s[..i]) && IsBlank(s[i + |Trim(s)|..])
  {
    var a := TrimStart(s);
    var i := |s| - |a|;
    var r := TrimEnd(a);
    assert s[i + |r|..] == a[|r|..];
  }

  /** The trimmed string is empty exactly when the string is all whitespace. */
  lemma TrimEmptyIffBlank(s: string)
    ensures Trim(s) == [] <==> IsBlank(s)
  {
    var a := TrimStart(s);
    var i := |s| - |a|;
    if Trim(s) == [] {
      assert a[0..] == a;
      assert s == s[..i] + a;
      BlankConcat(s[..i], a);
    } else {
      BlankTrimsToEmpty(s);
    }
  }

  lemma BlankConcat(x: string, y: string)
    requires IsBlank(x) && IsBlank(y)
    ensures IsBlank(x + y)
  {
  }

  lemma BlankTrimsToEmpty(s: string)
    ensures IsBlank(s) ==> TrimStart(s) == []
  {
  }

  // ---------------------------------------------------------------------------
  // Case mapping (ASCII only)

  function LowerChar(c: char): char {
    if 'A' <= c <= 'Z' then (c as int + 32) as char else c
  }

  function UpperChar(c: char): char {
    if 'a' <= c <= 'z' then (c as int - 32) as char else c
  }

  /** `s.toLowerCase()` restricted to ASCII letters. */
  function ToLower(s: string): (r: string)
    ensures |r| == |s|
    ensures forall k :: 0 <= k < |s| ==> r[k] == LowerChar(s[k])
    ensures forall k :: 0 <= k < |s| ==> !('A' <= r[k] <= 'Z')
  {
    seq(|s|, k requires 0 <= k < |s| => LowerChar(s[k]))
  }

  /** `s.toUpperCase()` restricted to ASCII letters. */
  function ToUpper(s: string): (r: string)
    ensures |r| == |s|
    ensures forall k :: 0 <= k < |s| ==> r[k] == UpperChar(s[k])
  {
    seq(|s|, k requires 0 <= k < |s| => UpperChar(s[k]))
  }

  // ---------------------------------------------------------------------------
  // Substrings

  /** `s.includes(sub)` (also Prisma's `contains`, taken as case-sensitive). */
  predicate Contains(s: string, sub: string) {
    exists i | 0 <= i <= |s| - |sub| :: OccursAt(s, sub, i)
  }

  /** `sub` occurs in `s` starting at index `i`. */
  predicate OccursAt(s: string, sub: string, i: int) {
    0 <= i <= |s| - |sub| && s[i..i + |sub|] == sub
  }

  lemma ContainsEmpty(s: string)
    ensures Contains(s, "")
  {
    assert OccursAt(s, "", 0);
  }

  lemma ContainsSelf(s: string)
    ensures Contains(s, s)
  {
    assert OccursAt(s, s, 0);
  }

  /** `s.slice(-n)`: the last `n` characters, or all of `s` when it is shorter. */
  function LastN(s: string, n: nat): (r: string)
    ensures |r| == if |s| < n then |s| else n
    ensures r == s[|s| - |r|..]
  {
    if |s| <= n then s else s[|s| - n..]
  }

  /** `s.replace(/a/g, b)` for single characters. */
  function ReplaceChar(s: string, a: char, b: char): (r: string)
    ensures |r| == |s|
    ensures forall k :: 0 <= k < |s| ==> r[k] == (if s[k] == a then b else s[k])
  {
    seq(|s|, k requires 0 <= k < |s| => if s[k] == a then b else s[k])
  }

  // ---------------------------------------------------------------------------
  // split / join on one separator character

  /** The index of the first `sep` in `s`, or `|s|` when there is none. */
  function SepIndex(s: string, sep: char): (i: nat)
    ensures i <= |s|
    ensures i < |s| ==> s[i] == sep
    ensures forall k | 0 <= k < i :: s[k] != sep
    decreases |s|
  {
    if |s| == 0 || s[0] == sep then 0 else 1 + SepIndex(s[1..], sep)
  }

  /** `s.split(sep)` for a one-character separator: always at least one piece. */
  function Split(s: string, sep: char): (r: seq<string>)
    ensures |r| >= 1
    decreases |s|
  {
    var i := SepIndex(s, sep);
    if i == |s| then [s] else [s[..i]] + Split(s[i + 1..], sep)
  }

  /** No piece of a split contains the separator. */
  lemma {:induction false} SplitPiecesLackSep(s: string, sep: char)
    ensures forall k | 0 <= k < |Split(s, sep)| :: sep !in Split(s, sep)[k]
    decreases |s|
  {
    var i := SepIndex(s, sep);
    if i < |s| {
      SplitPiecesLackSep(s[i + 1..], sep);
      var rest := Split(s[i + 1..], sep);
      assert Split(s, sep) == [s[..i]] + rest;
      assert sep !in s[..i];
    }
  }

  /** `parts.join(sep)`; the join of no parts is the empty string. */
  function Join(parts: seq<string>, sep: char): string
    decreases |parts|
  {
    if |parts| == 0 then ""
    else if |parts| == 1 then parts[0]
    else parts[0] + [sep] + Join(parts[1..], sep)
  }

  /** Splitting and joining again on the same separator gives back the string. */
  lemma {:induction false} JoinSplit(s: string, sep: char)
    ensures Join(Split(s, sep), sep) == s
    decreases |s|
  {
    var i := SepIndex(s, sep);
    if i < |s| {
      var t := s[i + 1..];
      JoinSplit(t, sep);
      JoinCons(s[..i], Split(t, sep), sep);
      assert s == s[..i] + [sep] + t;
    }
  }

  /** Joining a piece in front of at least one more puts a separator between. */
  lemma JoinCons(p: string, rest: seq<string>, sep: char)
    requires |rest| >= 1
    ensures Join([p] + rest, sep) == p + [sep] + Join(rest, sep)
  {
    assert ([p] + rest)[1..] == rest;
  }

  /** The first piece of a split is a prefix of the string, followed by the
      separator when it is shorter. */
  lemma SplitHeadIsPrefix(s: string, sep: char)
    ensures |Split(s, sep)[0]| <= |s| && Split(s, sep)[0] == s[..|Split(s, sep)[0]|]
    ensures |Split(s, sep)[0]| < |s| ==> s[|Split(s, sep)[0]|] == sep
  {
  }

  /** The last piece of a split is a suffix of the string, preceded by the
      separator when it is shorter. */
  lemma {:induction false} SplitLastIsSuffix(s: string, sep: char)
    ensures var r := Split(s, sep); |r[|r| - 1]| <= |s| && r[|r| - 1] == s[|s| - |r[|r| - 1]|..]
    ensures var r := Split(s, sep); sep !in s ==> r == [s]
    ensures var r := Split(s, sep); |r| > 1 ==> |r[|r| - 1]| < |s|
    ensures var r := Split(s, sep); |r[|r| - 1]| < |s| ==> s[|s| - |r[|r| - 1]| - 1] == sep
    decreases |s|
  {
    var i := SepIndex(s, sep);
    if i < |s| {
      var t := s[i + 1..];
      SplitLastIsSuffix(t, sep);
      var rest := Split(t, sep);
      var last := rest[|rest| - 1];
      var r := Split(s, sep);
      assert |r| > 1 && r[|r| - 1] == last by {
        assert r == [s[..i]] + rest;
      }
      assert last == s[|s| - |last|..] by {
        assert t[|t| - |last|..] == s[|s| - |last|..];
      }
      assert s[|s| - |last| - 1] == sep by {
        if |last| < |t| {
          assert s[|s| - |last| - 1] == t[|t| - |last| - 1];
        }
      }
    } else {
      assert Split(s, sep) == [s];
    }
  }

  // ---------------------------------------------------------------------------
  // Lexicographic order (code points; JavaScript's default sort uses UTF-16 units)

  predicate LexLess(a: string, b: string)
    decreases |a|
  {
    if |a| == 0 then |b| > 0
    else if |b| == 0 then false
    else if a[0] != b[0] then a[0] < b[0]
    else LexLess(a[1..], b[1..])
  }

  /** For distinct strings exactly one is smaller than the other. */
  lemma {:induction false} LexLessTotal(a: string, b: string)
    requires a != b
    ensures LexLess(a, b) != LexLess(b, a)
    decreases |a|
  {
    if |a| > 0 && |b| > 0 && a[0] == b[0] {
      assert a == [a[0]] + a[1..] && b == [b[0]] + b[1..];
      LexLessTotal(a[1..], b[1..]);
    }
  }

  // ---------------------------------------------------------------------------
  // Numbers as text

  function DigitChar(d: nat): char
    requires d < 16
  {
    if d < 10 then ('0' as int + d) as char else ('a' as int + d - 10) as char
  }

  /** The value of a digit character in the given radix (10 or 16), if it is one. */
  function DigitValue(c: char, radix: nat): Option<nat> {
    if '0' <= c <= '9' && (c as int - '0' as int) < radix then Some(c as int - '0' as int)
    else if radix == 16 && 'a' <= c <= 'f' then Some(c as int - 'a' as int + 10)
    else if radix == 16 && 'A' <= c <= 'F' then Some(c as int - 'A' as int + 10)
    else None
  }

  predicate AllDigits(s: string, radix: nat) {
    forall k :: 0 <= k < |s| ==> DigitValue(s[k], radix).Some?
  }

  /** The number a digit string denotes. */
  function DigitsValue(s: string, radix: nat): nat
    requires radix == 10 || radix == 16
    requires AllDigits(s, radix)
  {
    if |s| == 0 then 0
    else
      var v := DigitsValue(s[..|s| - 1], radix);
      (if radix == 16 then 16 * v else 10 * v) + DigitValue(s[|s| - 1], radix).value
  }

  /** The decimal digits of `n`, most significant first, without leading zeros. */
  function NatToString(n: nat): (r: string)
    ensures |r| >= 1 && AllDigits(r, 10)
    ensures r[0] != '0' || n == 0
  {
    if n < 10 then [DigitChar(n)] else NatToString(n / 10) + [DigitChar(n % 10)]
  }

  /** `String(n)` / `${n}` for an integer. */
  function IntToString(n: int): (r: string)
    ensures |r| >= 1
    ensures n >= 0 ==> AllDigits(r, 10)
    ensures n < 0 ==> r[0] == '-' && AllDigits(r[1..], 10)
  {
    if n >= 0 then NatToString(n) else "-" + NatToString(-n)
  }

  lemma {:induction false} NatToStringValue(n: nat)
    ensures DigitsValue(NatToString(n), 10) == n
  {
    if n >= 10 {
      NatToStringValue(n / 10);
      var r := NatToString(n);
      assert r[..|r| - 1] == NatToString(n / 10);
    }
  }

  /** Length of the longest prefix of `s` made of digits of `radix`. */
  function DigitPrefixLen(s: string, radix: nat): (n: nat)
    ensures n <= |s| && AllDigits(s[..n], radix)
    ensures n < |s| ==> DigitValue(s[n], radix).None?
  {
    if |s| == 0 || DigitValue(s[0], radix).None? then 0
    else
      var n := 1 + DigitPrefixLen(s[1..], radix);
      assert forall k :: 1 <= k < n ==> s[..n][k] == s[1..][..n - 1][k - 1];
      n
  }

  /** The digits part of `parseInt`: a `0x`/`0X` prefix selects radix 16,
      otherwise radix 10; then the longest run of digits. `None` when there is no
      digit at all. */
  function ParseUnsigned(u: string): Option<nat> {
    var hex := |u| >= 2 && u[0] == '0' && (u[1] == 'x' || u[1] == 'X');
    var radix := if hex then 16 else 10;
    var digits := if hex then u[2..] else u;
    var n := DigitPrefixLen(digits, radix);
    if n == 0 then None else Some(DigitsValue(digits[..n], radix))
  }

  /** `parseInt(s)` with no radix: skip leading whitespace, take an optional
      sign, then the digits; `None` stands for NaN. */
  function ParseInt(s: string): Option<int> {
    ParseSigned(TrimStart(s))
  }

  /** `parseInt` after the leading whitespace: an optional sign, then digits. */
  function ParseSigned(t: string): Option<int> {
    if |t| > 0 && t[0] == '-' then
      match ParseUnsigned(t[1..])
      case None => None
      case Some(v) => Some(0 - v as int)
    else
      var u := if |t| > 0 && t[0] == '+' then t[1..] else t;
      match ParseUnsigned(u)
      case None => None
      case Some(v) => Some(v as int)
  }

  lemma {:induction false} DigitPrefixOfDigits(s: string)
    requires AllDigits(s, 10)
    ensures DigitPrefixLen(s, 10) == |s|
    decreases |s|
  {
    if |s| > 0 {
      DigitPrefixOfDigits(s[1..]);
    }
  }

  lemma ParseUnsignedDecimal(d: string)
    requires |d| >= 1 && AllDigits(d, 10)
    requires d[0] == '0' ==> |d| == 1
    ensures ParseUnsigned(d) == Some(DigitsValue(d, 10))
  {
    DigitPrefixOfDigits(d);
    assert d[..|d|] == d;
  }

  /** A string that starts with a digit or a minus sign has no leading
      whitespace to skip. */
  lemma NoLeadingSpace(r: string)
    requires |r| >= 1 && (r[0] == '-' || '0' <= r[0] <= '9')
    ensures TrimStart(r) == r
  {
    assert !IsSpace(r[0]);
  }

  /** Without a sign, `parseInt` reads the digits as they are. */
  lemma ParseSignedPlain(t: string, v: nat)
    requires |t| >= 1 && '0' <= t[0] <= '9' && ParseUnsigned(t) == Some(v)
    ensures ParseSigned(t) == Some(v)
  {
  }

  /** A minus sign negates what follows it. */
  lemma ParseSignedMinus(t: string, v: nat)
    requires |t| >= 1 && t[0] == '-' && ParseUnsigned(t[1..]) == Some(v)
    ensures ParseSigned(t) == Some(0 - v)
  {
  }

  /** Printing an integer and parsing it back gives the integer. */
  lemma IntToStringParses(n: int)
    ensures ParseInt(IntToString(n)) == Some(n)
  {
    var r := IntToString(n);
    assert ParseSigned(r) == Some(n) && (r[0] == '-' || '0' <= r[0] <= '9') by {
      var m := if n >= 0 then n else -n;
      var d := NatToString(m);
      NatToStringValue(m);
      ParseUnsignedDecimal(d);
      assert DigitValue(d[0], 10).Some?;
      if n >= 0 {
        ParseSignedPlain(d, m);
      } else {
        assert r[1..] == d;
        ParseSignedMinus(r, m);
      }
    }
    NoLeadingSpace(r);
  }
}
