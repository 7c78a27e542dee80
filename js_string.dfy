/**
 * The JavaScript string operations the scrapers and the server routes lean on, with the
 * semantics of ECMAScript: `\s` and `trim`, ASCII `toLowerCase`, `startsWith`/`includes`, `split`
 * on one character, `Array.prototype.join`, decimal rendering of integers, `parseInt` in base 10,
 * and UTF-16 lengths.
 *
 * A Dafny `string` is a sequence of Unicode scalar values; JavaScript counts UTF-16 code units.
 * Where the source's behaviour depends on that count (`length`, `substring`) the functions
 * `Utf16Len` and `Utf16Prefix` below supply it.
 */
module JsString {
  import opened Wrappers

  /** The characters matched by `\s` and removed by `String.prototype.trim`:
    * ECMAScript WhiteSpace (including every Zs character) and LineTerminator. */
  predicate IsSpace(c: char) {
    c == ' ' || c == '\t' || c == '\n' || c == '\r' || c == '\U{000B}' || c == '\U{000C}'
    || c == '\U{00A0}' || c == '\U{1680}' || ('\U{2000}' <= c <= '\U{200A}')
    || c == '\U{2028}' || c == '\U{2029}' || c == '\U{202F}' || c == '\U{205F}'
    || c == '\U{3000}' || c == '\U{FEFF}'
  }

  /** No white space at either end: what `trim` produces. */
  predicate IsTrimmed(s: string) {
    s == [] || (!IsSpace(s[0]) && !IsSpace(s[|s| - 1]))
  }

  function TrimStart(s: string): (r: string)
    ensures |r| <= |s| && r == s[|s| - |r|..]
    ensures r == [] || !IsSpace(r[0])
    ensures forall k :: 0 <= k < |s| - |r| ==> IsSpace(s[k])
  {
    if s != [] && IsSpace(s[0]) then TrimStart(s[1..]) else s
  }

  function TrimEnd(s: string): (r: string)
    ensures |r| <= |s| && r == s[..|r|]
    ensures r == [] || !IsSpace(r[|r| - 1])
    ensures forall k :: |r| <= k < |s| ==> IsSpace(s[k])
  {
    if s != [] && IsSpace(s[|s| - 1]) then TrimEnd(s[..|s| - 1]) else s
  }

  lemma TrimStartSpace(x: string)
    ensures TrimStart(" " + x) == TrimStart(x)
  {
    var p := " " + x;
    assert p[0] == ' ' && p[1..] == x;
  }

  lemma TrimEndSpace(x: string)
    ensures TrimEnd(x + " ") == TrimEnd(x)
  {
    var p := x + " ";
    assert p[|p| - 1] == ' ' && p[..|p| - 1] == x;
  }

  lemma AbsentConcat(a: string, b: string, c: char)
    requires c !in a && c !in b
    ensures c !in a + b
  {
  }

  /** `String.prototype.trim`. */
  function Trim(s: string): (r: string)
    ensures IsTrimmed(r)
    ensures IsTrimmed(s) ==> r == s
  {
    TrimEnd(TrimStart(s))
  }

  /** `trim` only removes characters. */
  lemma TrimAbsent(s: string, c: char)
    requires c !in s
    ensures c !in Trim(s)
  {
    var t := TrimStart(s);
    assert c !in t by {
      assert t == s[|s| - |t|..];
    }
    var u := TrimEnd(t);
    assert u == t[..|u|];
  }

  /** The white-space-free strings are left alone by `trim`, and a trimmed string's trim is itself. */
  lemma TrimIdempotent(s: string)
    ensures Trim(Trim(s)) == Trim(s)
  {
  }

  /** ASCII case mapping of `toLowerCase` (letters outside A-Z are left as they are). */
  function LowerChar(c: char): char {
    if 'A' <= c <= 'Z' then (c as int + 32) as char else c
  }

  function ToLower(s: string): (r: string)
    ensures |r| == |s|
    ensures forall k :: 0 <= k < |s| ==> r[k] == LowerChar(s[k])
  {
    seq(|s|, k requires 0 <= k < |s| => LowerChar(s[k]))
  }

  lemma ToLowerConcat(a: string, b: string)
    ensures ToLower(a + b) == ToLower(a) + ToLower(b)
  {
  }

  /** `s.startsWith(p)`. */
  predicate StartsWith(s: string, p: string) {
    |p| <= |s| && s[..|p|] == p
  }

  /** `s.includes(sub)`: some suffix of `s` starts with `sub`. */
  predicate Contains(s: string, sub: string)
    decreases |s|
  {
    StartsWith(s, sub) || (s != [] && Contains(s[1..], sub))
  }

  /** `Contains` means exactly that `sub` occurs at some position of `s`. */
  lemma {:induction false} ContainsAt(s: string, sub: string, i: nat)
    requires i + |sub| <= |s| && s[i..i + |sub|] == sub
    ensures Contains(s, sub)
    decreases i
  {
    if i > 0 {
      assert s[1..][i - 1..i - 1 + |sub|] == s[i..i + |sub|];
      ContainsAt(s[1..], sub, i - 1);
    }
  }

  lemma {:induction false} ContainsWitness(s: string, sub: string) returns (i: nat)
    requires Contains(s, sub)
    ensures i + |sub| <= |s| && s[i..i + |sub|] == sub
    decreases |s|
  {
    if StartsWith(s, sub) {
      i := 0;
    } else {
      var j := ContainsWitness(s[1..], sub);
      assert s[1..][j..j + |sub|] == s[j + 1..j + 1 + |sub|];
      i := j + 1;
    }
  }

  /** The first position of `c` in `s`. */
  function IndexOf(s: string, c: char): (i: nat)
    requires c in s
    ensures i < |s| && s[i] == c && c !in s[..i]
  {
    if s[0] == c then 0
    else
      assert c in s[1..];
      var j := IndexOf(s[1..], c);
      assert s[..j + 1] == [s[0]] + s[1..][..j];
      j + 1
  }

  /** `s.split(sep)` for a one-character separator: the maximal separator-free pieces, in order,
    * empty pieces included (`"a,,b"` has three pieces, `""` has one). */
  function Split(s: string, sep: char): (parts: seq<string>)
    ensures |parts| >= 1
    ensures forall k :: 0 <= k < |parts| ==> sep !in parts[k]
    decreases |s|
  {
    if sep !in s then [s]
    else
      var i := IndexOf(s, sep);
      [s[..i]] + Split(s[i + 1..], sep)
  }

  /** `parts.join(sep)`. */
  function Join(parts: seq<string>, sep: string): string {
    if |parts| == 0 then ""
    else if |parts| == 1 then parts[0]
    else parts[0] + sep + Join(parts[1..], sep)
  }

  /** A join starts with its first piece. */
  lemma JoinHead(parts: seq<string>, sep: string)
    requires |parts| >= 1
    ensures parts[0] <= Join(parts, sep)
  {
  }

  lemma JoinCons(a: string, rest: seq<string>, sep: string)
    requires |rest| >= 1
    ensures Join([a] + rest, sep) == a + sep + Join(rest, sep)
  {
    assert ([a] + rest)[0] == a && ([a] + rest)[1..] == rest;
  }

  /** Joining two non-empty lists of pieces: the two joins with one separator between them. */
  lemma {:induction false} JoinConcat(a: seq<string>, b: seq<string>, sep: string)
    requires |a| >= 1 && |b| >= 1
    ensures Join(a + b, sep) == Join(a, sep) + sep + Join(b, sep)
    decreases |a|
  {
    if |a| == 1 {
      assert (a + b)[0] == a[0] && (a + b)[1..] == b;
    } else {
      assert (a + b)[0] == a[0] && (a + b)[1..] == a[1..] + b;
      JoinConcat(a[1..], b, sep);
    }
  }

  /** A character in none of the pieces and not in the separator is not in the join. */
  lemma {:induction false} JoinAbsent(parts: seq<string>, sep: string, c: char)
    requires c !in sep
    requires forall k :: 0 <= k < |parts| ==> c !in parts[k]
    ensures c !in Join(parts, sep)
    decreases |parts|
  {
    if |parts| > 1 {
      JoinAbsent(parts[1..], sep, c);
    }
  }

  /** Splitting a string that starts with a separator-free piece and a separator. */
  lemma SplitCons(a: string, sep: char, b: string)
    requires sep !in a
    ensures Split(a + [sep] + b, sep) == [a] + Split(b, sep)
  {
    var s := a + [sep] + b;
    assert s[|a|] == sep;
    var i := IndexOf(s, sep);
    assert s[..i] == a;
    assert s[i + 1..] == b;
  }

  /** `split` and `join` on the same separator undo each other. */
  lemma {:induction false} SplitJoin(s: string, sep: char)
    ensures Join(Split(s, sep), [sep]) == s
    decreases |s|
  {
    if sep in s {
      var i := IndexOf(s, sep);
      var first, rest := s[..i], s[i + 1..];
      var parts := Split(rest, sep);
      assert Split(s, sep) == [first] + parts;
      SplitJoin(rest, sep);
      JoinCons(first, parts, [sep]);
      assert s == first + [sep] + rest;
    }
  }

  /** Joining separator-free pieces and splitting again gives the pieces back. */
  lemma {:induction false} JoinSplit(parts: seq<string>, sep: char)
    requires |parts| >= 1
    requires forall k :: 0 <= k < |parts| ==> sep !in parts[k]
    ensures Split(Join(parts, [sep]), sep) == parts
    decreases |parts|
  {
    if |parts| > 1 {
      JoinSplit(parts[1..], sep);
      SplitCons(parts[0], sep, Join(parts[1..], [sep]));
      assert parts == [parts[0]] + parts[1..];
    }
  }

  /** No piece holds the character `c`. */
  predicate NoneHolds(parts: seq<string>, c: char) {
    forall k :: 0 <= k < |parts| ==> c !in parts[k]
  }

  lemma NoneHoldsConcat(a: seq<string>, b: seq<string>, c: char)
    requires NoneHolds(a, c) && NoneHolds(b, c)
    ensures NoneHolds(a + b, c)
  {
    forall k | 0 <= k < |a + b| ensures c !in (a + b)[k] {
      if k >= |a| {
        assert (a + b)[k] == b[k - |a|];
      }
    }
  }

  lemma NoneHoldsThree(a: seq<string>, b: seq<string>, d: seq<string>, c: char)
    requires NoneHolds(a, c) && NoneHolds(b, c) && NoneHolds(d, c)
    ensures NoneHolds(a + b + d, c)
  {
    NoneHoldsConcat(a, b, c);
    NoneHoldsConcat(a + b, d, c);
  }

  /** Appending a line and its break to `head + body` extends `body` by the same text. */
  lemma AppendLine(table: string, head: string, body: string, line: string, next: string)
    requires table == head + body
    requires next == body + line + "\n"
    ensures table + line + "\n" == head + next
  {
  }

  /** The pieces each followed by `sep`, as a loop of `text += piece + sep` builds them. */
  function Terminated(parts: seq<string>, sep: string): string
    decreases |parts|
  {
    if parts == [] then "" else Terminated(parts[..|parts| - 1], sep) + parts[|parts| - 1] + sep
  }

  /** Terminated pieces between a head and a tail of a join are the same join. */
  lemma {:induction false} JoinTerminated(head: seq<string>, parts: seq<string>, tail: seq<string>, sep: string)
    requires |head| >= 1 && |tail| >= 1
    ensures Join(head + parts + tail, sep) == Join(head, sep) + sep + Terminated(parts, sep) + Join(tail, sep)
    decreases |parts|
  {
    if parts == [] {
      assert head + parts + tail == head + tail;
      JoinConcat(head, tail, sep);
    } else {
      var init := parts[..|parts| - 1];
      var last := parts[|parts| - 1];
      assert head + parts + tail == head + init + ([last] + tail);
      JoinTerminated(head, init, [last] + tail, sep);
      JoinCons(last, tail, sep);
    }
  }

  /** `a.slice(0, end)` on an array or a string: a negative `end` counts back from the end. */
  function SliceTo<T>(a: seq<T>, end: int): (r: seq<T>)
    ensures r <= a
    ensures end >= 0 ==> |r| == if end <= |a| then end else |a|
    ensures end < 0 ==> |r| == if |a| + end >= 0 then |a| + end else 0
  {
    if end >= 0 then (if end <= |a| then a[..end] else a)
    else if |a| + end >= 0 then a[..|a| + end]
    else []
  }

  function DigitChar(d: nat): (c: char)
    requires d < 10
    ensures '0' <= c <= '9'
    ensures c as int - '0' as int == d
  {
    ('0' as int + d) as char
  }

  predicate IsDigit(c: char) { '0' <= c <= '9' }

  /** The longest run of decimal digits at the start of `s`. */
  function LeadingDigits(s: string): (r: string)
    ensures r <= s
    ensures forall k :: 0 <= k < |r| ==> IsDigit(r[k])
    ensures |r| < |s| ==> !IsDigit(s[|r|])
    decreases |s|
  {
    if s != [] && IsDigit(s[0]) then [s[0]] + LeadingDigits(s[1..]) else []
  }

  predicate IsSign(c: char) { c == '+' || c == '-' }

  /** The optional sign at the start of `s`. */
  function LeadingSign(s: string): (r: string)
    ensures r <= s && |r| <= 1
  {
    if s != [] && IsSign(s[0]) then [s[0]] else []
  }

  /** The value of a string of decimal digits, the empty string reading as 0. */
  function DigitsValue(d: string): nat
    requires forall k :: 0 <= k < |d| ==> IsDigit(d[k])
    decreases |d|
  {
    if d == [] then 0
    else
      assert IsDigit(d[|d| - 1]);
      10 * DigitsValue(d[..|d| - 1]) + (d[|d| - 1] as int - '0' as int)
  }

  /** `parseInt(s, 10)`: leading white space skipped, an optional sign, then the longest run of
    * decimal digits; `None` stands for NaN. */
  function ParseInt(s: string): (r: Option<int>)
    ensures var t := TrimStart(s); var u := t[|LeadingSign(t)|..];
      && (r.None? <==> u == [] || !IsDigit(u[0]))
      && (r.Some? && LeadingSign(t) != "-" ==> r.value >= 0)
  {
    var t := TrimStart(s);
    var sign := LeadingSign(t);
    var digits := LeadingDigits(t[|sign|..]);
    var value: int := DigitsValue(digits);
    if digits == [] then None
    else if sign == "-" then Some(-value)
    else Some(value)
  }

  /** The decimal rendering of a non-negative integer (`String(n)`, template interpolation). */
  function NatToString(n: nat): (r: string)
    ensures |r| >= 1
    ensures forall k :: 0 <= k < |r| ==> IsDigit(r[k])
  {
    if n < 10 then [DigitChar(n)] else NatToString(n / 10) + [DigitChar(n % 10)]
  }

  /** Distinct numbers have distinct decimal renderings. */
  lemma {:induction false} NatToStringInjective(n: nat, m: nat)
    requires NatToString(n) == NatToString(m)
    ensures n == m
    decreases n
  {
    var s := NatToString(n);
    if n >= 10 && m >= 10 {
      assert NatToString(n / 10) == s[..|s| - 1] == NatToString(m / 10);
      assert DigitChar(n % 10) == s[|s| - 1] == DigitChar(m % 10);
      NatToStringInjective(n / 10, m / 10);
    }
  }

  /** The decimal rendering of an integer: a minus sign in front of a negative one. */
  function IntToString(n: int): string {
    if n < 0 then "-" + NatToString(-n) else NatToString(n)
  }

  /** Reading back a decimal rendering gives the number. */
  lemma {:induction false} DigitsValueOfNatToString(n: nat)
    ensures DigitsValue(NatToString(n)) == n
    decreases n
  {
    if n >= 10 {
      var s := NatToString(n);
      assert s[..|s| - 1] == NatToString(n / 10);
      DigitsValueOfNatToString(n / 10);
    }
  }

  /** Digits followed by something that is not a digit: the digit run is exactly those digits. */
  lemma {:induction false} LeadingDigitsOf(d: string, rest: string)
    requires forall k :: 0 <= k < |d| ==> IsDigit(d[k])
    requires rest == [] || !IsDigit(rest[0])
    ensures LeadingDigits(d + rest) == d
    decreases |d|
  {
    if d == [] {
      assert d + rest == rest;
    } else {
      assert (d + rest)[1..] == d[1..] + rest;
      LeadingDigitsOf(d[1..], rest);
    }
  }

  /** `parseInt` reads a number's decimal rendering back, also when text that does not start
    * with a digit follows it (`"25abc"` reads as 25). */
  lemma ParseIntOfIntToString(n: int, rest: string)
    requires rest == [] || !IsDigit(rest[0])
    ensures ParseInt(IntToString(n) + rest) == Some(n)
  {
    var s := IntToString(n) + rest;
    assert !IsSpace(s[0]);
    assert TrimStart(s) == s;
    var digits := NatToString(if n < 0 then -n else n);
    if n < 0 {
      assert s == "-" + (digits + rest);
      assert LeadingSign(s) == "-";
      assert s[1..] == digits + rest;
    } else {
      assert LeadingSign(s) == [];
    }
    LeadingDigitsOf(digits, rest);
    DigitsValueOfNatToString(if n < 0 then -n else n);
  }

  /** UTF-16 code units of one character: two for a character outside the Basic Multilingual Plane. */
  function CodeUnits(c: char): nat {
    if c as int > 0xFFFF then 2 else 1
  }

  /** JavaScript's `length` of the string. */
  function Utf16Len(s: string): (n: nat)
    ensures |s| <= n <= 2 * |s|
  {
    if s == [] then 0 else CodeUnits(s[0]) + Utf16Len(s[1..])
  }

  lemma {:induction false} Utf16LenConcat(a: string, b: string)
    ensures Utf16Len(a + b) == Utf16Len(a) + Utf16Len(b)
    decreases |a|
  {
    if a != [] {
      assert (a + b)[1..] == a[1..] + b;
      assert (a + b)[0] == a[0];
      Utf16LenConcat(a[1..], b);
    } else {
      assert a + b == b;
    }
  }

  /** `s.substring(0, n)` where no surrogate pair straddles position `n`: the longest prefix of `s`
    * whose UTF-16 length is at most `n`. */
  function Utf16Prefix(s: string, n: nat): (r: string)
    ensures r <= s
    ensures Utf16Len(r) <= n
    ensures r == s || Utf16Len(r) + CodeUnits(s[|r|]) > n
  {
    if s == [] || CodeUnits(s[0]) > n then []
    else [s[0]] + Utf16Prefix(s[1..], n - CodeUnits(s[0]))
  }

  /** A string no longer than `n` code units is its own `substring(0, n)`. */
  lemma {:induction false} Utf16PrefixWhole(s: string, n: nat)
    requires Utf16Len(s) <= n
    ensures Utf16Prefix(s, n) == s
    decreases |s|
  {
    if s != [] {
      Utf16PrefixWhole(s[1..], n - CodeUnits(s[0]));
    }
  }
}
