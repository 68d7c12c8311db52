/**
 * The JavaScript string operations the dashboard relies on, over `string` (a sequence of
 * UTF-16 code units is modelled as a sequence of `char`): `trim`, `toLowerCase`, `includes`,
 * `endsWith`, `split` on one character, `join`, `slice(0, n)`, and the decimal text of a
 * non-negative integer (template literals such as `${n} usuários`).
 */
module Text {

  /** The characters JavaScript's `trim` removes and the regular-expression class `\s` matches:
    * the WhiteSpace and LineTerminator code points of ECMAScript. */
  predicate IsWhitespace(c: char) {
    var n := c as int;
    n == 0x09 || n == 0x0A || n == 0x0B || n == 0x0C || n == 0x0D || n == 0x20 ||
    n == 0xA0 || n == 0x1680 || (0x2000 <= n <= 0x200A) || n == 0x2028 || n == 0x2029 ||
    n == 0x202F || n == 0x205F || n == 0x3000 || n == 0xFEFF
  }

  /** `trimStart`: drops the leading white space and nothing else. */
  function TrimStart(s: string): (r: string)
    ensures |r| <= |s| && r == s[|s| - |r|..]
    ensures r == [] || !IsWhitespace(r[0])
    ensures forall i :: 0 <= i < |s| - |r| ==> IsWhitespace(s[i])
  {
    if s != [] && IsWhitespace(s[0]) then TrimStart(s[1..]) else s
  }

  /** `trimEnd`: drops the trailing white space and nothing else. */
  function TrimEnd(s: string): (r: string)
    ensures |r| <= |s| && r == s[..|r|]
    ensures r == [] || !IsWhitespace(r[|r| - 1])
    ensures forall i :: |r| <= i < |s| ==> IsWhitespace(s[i])
  {
    if s != [] && IsWhitespace(s[|s| - 1]) then TrimEnd(s[..|s| - 1]) else s
  }

  function Trim(s: string): string {
    TrimEnd(TrimStart(s))
  }

  /** `!s.trim()`: the text holds nothing but white space (`BlankIffTrimmedEmpty` shows that
    * this is the same as the trimmed text being empty). */
  predicate IsBlank(s: string) {
    forall i :: 0 <= i < |s| ==> IsWhitespace(s[i])
  }

  /** A text is blank exactly when trimming leaves nothing of it. */
  lemma BlankIffTrimmedEmpty(s: string)
    ensures IsBlank(s) <==> Trim(s) == ""
  {
    var t := TrimStart(s);
    var r := TrimEnd(t);
    assert Trim(s) == r;
    if IsBlank(s) {
      assert t == [];
    } else {
      var k :| 0 <= k < |s| && !IsWhitespace(s[k]);
      assert k >= |s| - |t|;
      assert t[k - (|s| - |t|)] == s[k];
      assert |r| > k - (|s| - |t|);
    }
  }

  /** A text with one character that is not white space is not blank. */
  lemma NotBlank(s: string, k: nat)
    requires k < |s| && !IsWhitespace(s[k])
    ensures !IsBlank(s)
  {
  }

  /** `toLowerCase` on one character, restricted to the ASCII capitals and the Latin-1
    * capitals (U+00C0 to U+00DE except the multiplication sign), which move 32 code points up.
    * Every other character is kept, although `toLowerCase` folds capitals in all scripts. */
  function LowerChar(c: char): char {
    if IsCapital(c) then (c as int + 32) as char else c
  }

  function ToLower(s: string): string {
    seq(|s|, i requires 0 <= i < |s| => LowerChar(s[i]))
  }

  /** A capital this model folds: an ASCII or Latin-1 capital. */
  predicate IsCapital(c: char) {
    'A' <= c <= 'Z' || (0xC0 <= c as int <= 0xDE && c as int != 0xD7)
  }

  /** Lower-casing leaves a text with no capital unchanged. */
  lemma LowerWithoutCapitals(s: string)
    requires forall i :: 0 <= i < |s| ==> !IsCapital(s[i])
    ensures ToLower(s) == s
  {
  }

  /** `s.includes(sub)`: `sub` occurs in `s` at some position (the empty text occurs everywhere). */
  predicate Contains(s: string, sub: string) {
    exists i | 0 <= i <= |s| - |sub| :: OccursAt(s, sub, i)
  }

  /** `sub` is the slice of `s` that starts at position `i`. */
  predicate OccursAt(s: string, sub: string, i: int) {
    0 <= i && i + |sub| <= |s| && s[i..i + |sub|] == sub
  }

  /** `s.toLowerCase().includes(q)` for a query `q` that is already lower case. */
  predicate ContainsFolded(s: string, q: string) {
    Contains(ToLower(s), q)
  }

  lemma EmptyContained(s: string)
    ensures Contains(s, "")
  {
    assert OccursAt(s, "", 0);
  }

  predicate EndsWith(s: string, suffix: string) {
    |suffix| <= |s| && s[|s| - |suffix|..] == suffix
  }

  /** `s.slice(0, n)` for `n >= 0`. */
  function Take(s: string, n: nat): (r: string)
    ensures r == if |s| <= n then s else s[..n]
  {
    if |s| <= n then s else s[..n]
  }

  /** `s.split(sep)` for a one-character separator: every occurrence cuts, so neighbouring
    * separators give empty parts, and the result is never empty. */
  function Split(s: string, sep: char): (parts: seq<string>)
    ensures |parts| >= 1
  {
    if s == [] then [""]
    else
      var rest := Split(s[1..], sep);
      if s[0] == sep then [""] + rest else [[s[0]] + rest[0]] + rest[1..]
  }

  /** `parts.join(sep)`. */
  function Join(parts: seq<string>, sep: char): string
    requires |parts| >= 1
  {
    if |parts| == 1 then parts[0] else parts[0] + [sep] + Join(parts[1..], sep)
  }

  /** No part of a split holds the separator, and joining the parts again gives back the text. */
  lemma {:induction false} SplitJoin(s: string, sep: char)
    ensures Join(Split(s, sep), sep) == s
    ensures forall k :: 0 <= k < |Split(s, sep)| ==> sep !in Split(s, sep)[k]
  {
    if s != [] {
      var rest := Split(s[1..], sep);
      SplitJoin(s[1..], sep);
      if s[0] == sep {
        assert Split(s, sep) == [""] + rest;
        assert Split(s, sep)[1..] == rest;
      } else {
        var parts := Split(s, sep);
        assert parts == [[s[0]] + rest[0]] + rest[1..];
        if |rest| == 1 {
          assert Join(parts, sep) == [s[0]] + rest[0];
        } else {
          assert parts[1..] == rest[1..];
          assert Join(rest, sep) == rest[0] + [sep] + Join(rest[1..], sep);
        }
        assert s == [s[0]] + s[1..];
      }
    }
  }

  /** A text without the separator splits into itself alone. */
  lemma {:induction false} SplitWord(w: string, sep: char)
    requires sep !in w
    ensures Split(w, sep) == [w]
  {
    if w != [] {
      SplitWord(w[1..], sep);
      assert [w[0]] + w[1..] == w;
    }
  }

  /** A word without the separator, then the separator, then the rest: the word is the first
    * part and the rest's parts follow. */
  lemma {:induction false} SplitAfterWord(w: string, sep: char, rest: string)
    requires sep !in w
    ensures Split(w + [sep] + rest, sep) == [w] + Split(rest, sep)
  {
    if w == [] {
      assert w + [sep] + rest == [sep] + rest;
      assert ([sep] + rest)[1..] == rest;
    } else {
      SplitAfterWord(w[1..], sep, rest);
      var s := w + [sep] + rest;
      assert s[0] == w[0] && s[1..] == w[1..] + [sep] + rest;
      assert [w[0]] + w[1..] == w;
    }
  }

  /** `s.split(sep)[0]`: the text before the first separator, or all of it when there is none. */
  function BeforeFirst(s: string, sep: char): (r: string)
    ensures |r| <= |s| && r == s[..|r|] && sep !in r
    ensures |r| < |s| ==> s[|r|] == sep
  {
    SplitJoin(s, sep);
    FirstPartIsPrefix(s, sep);
    Split(s, sep)[0]
  }

  lemma {:induction false} FirstPartIsPrefix(s: string, sep: char)
    ensures var p := Split(s, sep)[0]; |p| <= |s| && p == s[..|p|] && (|p| < |s| ==> s[|p|] == sep)
  {
    if s != [] && s[0] != sep {
      FirstPartIsPrefix(s[1..], sep);
    }
  }

  /** The decimal digit character for `d < 10`. */
  function Digit(d: nat): char
    requires d < 10
  {
    ('0' as int + d) as char
  }

  predicate IsDigit(c: char) {
    '0' <= c <= '9'
  }

  /** The text JavaScript writes for a non-negative integer: its decimal digits, no leading zero. */
  function DecimalString(n: nat): string
  {
    if n < 10 then [Digit(n)] else DecimalString(n / 10) + [Digit(n % 10)]
  }

  /** The value of a text of decimal digits. */
  function DecimalValue(s: string): nat
  {
    if s == [] then 0
    else if IsDigit(s[|s| - 1]) then DecimalValue(s[..|s| - 1]) * 10 + (s[|s| - 1] as int - '0' as int)
    else DecimalValue(s[..|s| - 1]) * 10
  }

  /** The decimal text is a non-empty run of digits that reads back as the number. */
  lemma {:induction false} DecimalRoundTrip(n: nat)
    ensures |DecimalString(n)| >= 1
    ensures forall i :: 0 <= i < |DecimalString(n)| ==> IsDigit(DecimalString(n)[i])
    ensures DecimalValue(DecimalString(n)) == n
  {
    if n >= 10 {
      DecimalRoundTrip(n / 10);
      var s := DecimalString(n);
      assert s[..|s| - 1] == DecimalString(n / 10);
    }
  }
}
