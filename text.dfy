/**
 * String behaviour of the JavaScript runtime that the front-end relies on:
 * rendering integers in decimal (template literals and `toString()`),
 * `String.prototype.includes`, `trim`, `toLowerCase`/`toUpperCase` and
 * the canonical decomposition of `normalize("NFD")`.
 *
 * Case mapping and decomposition are modelled for Basic Latin, the Latin-1
 * letters and the Turkish letters; every other character maps to itself.
 */
module Text {
  import opened Common

  predicate IsDigit(c: char)
  {
    '0' <= c <= '9'
  }

  predicate AllDigits(s: string)
  {
    forall i :: 0 <= i < |s| ==> IsDigit(s[i])
  }

  function DigitChar(d: nat): (c: char)
    requires d < 10
    ensures IsDigit(c) && (c as int) - ('0' as int) == d
  {
    ('0' as int + d) as char
  }

  /** The decimal rendering of a non-negative integer, without leading zeros. */
  function NatToString(n: nat): (r: string)
    ensures r != [] && AllDigits(r)
    ensures |r| > 1 ==> r[0] != '0'
    decreases n
  {
    if n < 10 then [DigitChar(n)] else NatToString(n / 10) + [DigitChar(n % 10)]
  }

  /** The number a string of decimal digits denotes (the reading direction of `NatToString`). */
  function DigitsValue(s: string): nat
    requires AllDigits(s)
    decreases |s|
  {
    if s == [] then 0
    else DigitsValue(s[..|s| - 1]) * 10 + ((s[|s| - 1] as int) - ('0' as int))
  }

  /** Reading back a rendered number gives the number: the rendering loses nothing. */
  lemma {:induction false} NatToStringRoundTrip(n: nat)
    ensures DigitsValue(NatToString(n)) == n
    decreases n
  {
    if n >= 10 {
      NatToStringRoundTrip(n / 10);
      var s := NatToString(n);
      assert s[..|s| - 1] == NatToString(n / 10);
    }
  }

  /** Distinct numbers render differently. */
  lemma NatToStringInjective(m: nat, n: nat)
    requires NatToString(m) == NatToString(n)
    ensures m == n
  {
    NatToStringRoundTrip(m);
    NatToStringRoundTrip(n);
  }

  /** `${i}` for an integer-valued number. */
  function IntToString(i: int): (r: string)
    ensures i >= 0 ==> r == NatToString(i)
    ensures i < 0 ==> r == "-" + NatToString(-i)
  {
    if i < 0 then "-" + NatToString(-i) else NatToString(i)
  }

  /** sub occurs in s starting at index i. */
  predicate OccursAt(s: string, sub: string, i: int)
  {
    0 <= i <= |s| - |sub| && s[i..i + |sub|] == sub
  }

  /** `s.includes(sub)`. */
  predicate Contains(s: string, sub: string)
  {
    exists i :: 0 <= i <= |s| - |sub| && OccursAt(s, sub, i)
  }

  /** Every string includes the empty string, so an empty needle matches everything. */
  lemma ContainsEmpty(s: string)
    ensures Contains(s, "")
  {
    assert OccursAt(s, "", 0);
  }

  /** A needle longer than the haystack is never found. */
  lemma ContainsTooLong(s: string, sub: string)
    requires |sub| > |s|
    ensures !Contains(s, sub)
  {
  }

  // ---------------------------------------------------------------------------
  // length

  /** `s.length`: JavaScript counts UTF-16 code units, two for a character outside the Basic Multilingual Plane. */
  function Utf16Length(s: string): (n: nat)
    ensures |s| <= n <= 2 * |s|
    decreases |s|
  {
    if s == [] then 0 else (if s[0] as int >= 0x10000 then 2 else 1) + Utf16Length(s[1..])
  }

  // ---------------------------------------------------------------------------
  // split and join

  /** `parts.join(sep)`. */
  function Join(parts: seq<string>, sep: char): string
    decreases |parts|
  {
    if parts == [] then ""
    else if |parts| == 1 then parts[0]
    else parts[0] + [sep] + Join(parts[1..], sep)
  }

  /** `s.split(sep)`: always at least one part, the empty string giving `[""]`. */
  function Split(s: string, sep: char): (r: seq<string>)
    ensures |r| >= 1
    decreases |s|
  {
    if s == [] then [""]
    else
      var rest := Split(s[1..], sep);
      if s[0] == sep then [""] + rest else [[s[0]] + rest[0]] + rest[1..]
  }

  predicate Free(s: string, sep: char)
  {
    forall i :: 0 <= i < |s| ==> s[i] != sep
  }

  /** Splitting a string that starts with a separator-free part glues that part onto the first piece. */
  lemma {:induction false} SplitFreePrefix(a: string, t: string, sep: char)
    requires Free(a, sep)
    ensures Split(a + t, sep) == [a + Split(t, sep)[0]] + Split(t, sep)[1..]
    decreases |a|
  {
    if a != [] {
      assert (a + t)[1..] == a[1..] + t;
      SplitFreePrefix(a[1..], t, sep);
      assert [a[0]] + (a[1..] + Split(t, sep)[0]) == a + Split(t, sep)[0];
    } else {
      var r := Split(t, sep);
      assert a + t == t && a + r[0] == r[0];
      assert [r[0]] + r[1..] == r;
    }
  }

  /** Splitting a join gives the parts back when no part holds the separator. */
  lemma {:induction false} SplitJoin(parts: seq<string>, sep: char)
    requires parts != []
    requires forall i :: 0 <= i < |parts| ==> Free(parts[i], sep)
    ensures Split(Join(parts, sep), sep) == parts
    decreases |parts|
  {
    if |parts| == 1 {
      SplitFreePrefix(parts[0], "", sep);
      assert parts[0] + "" == parts[0];
    } else {
      var t := Join(parts[1..], sep);
      SplitJoin(parts[1..], sep);
      assert Join(parts, sep) == parts[0] + ([sep] + t);
      SplitFreePrefix(parts[0], [sep] + t, sep);
      assert ([sep] + t)[1..] == t;
      assert parts[0] + "" == parts[0];
      assert [parts[0]] + parts[1..] == parts;
    }
  }

  // ---------------------------------------------------------------------------
  // trim

  /** The characters `String.prototype.trim` removes: WhiteSpace and LineTerminator of ECMA-262. */
  predicate IsSpace(c: char)
  {
    || c == '\t' || c == '\n' || c == '\U{000B}' || c == '\U{000C}' || c == '\r'
    || c == ' ' || c == '\U{00A0}' || c == '\U{1680}'
    || ('\U{2000}' <= c <= '\U{200A}')
    || c == '\U{2028}' || c == '\U{2029}' || c == '\U{202F}' || c == '\U{205F}'
    || c == '\U{3000}' || c == '\U{FEFF}'
  }

  predicate AllSpace(s: string)
  {
    forall i :: 0 <= i < |s| ==> IsSpace(s[i])
  }

  function LeadingSpaces(s: string): (k: nat)
    ensures k <= |s|
    ensures forall i :: 0 <= i < k ==> IsSpace(s[i])
    ensures k < |s| ==> !IsSpace(s[k])
    decreases |s|
  {
    if s != [] && IsSpace(s[0]) then 1 + LeadingSpaces(s[1..]) else 0
  }

  function TrailingSpaces(s: string): (k: nat)
    ensures k <= |s|
    ensures forall i :: |s| - k <= i < |s| ==> IsSpace(s[i])
    ensures k < |s| ==> !IsSpace(s[|s| - 1 - k])
    decreases |s|
  {
    if s != [] && IsSpace(s[|s| - 1]) then 1 + TrailingSpaces(s[..|s| - 1]) else 0
  }

  /**
   * `s.trim()`: s without its leading and trailing white space. It is empty
   * exactly when s is all white space, and otherwise starts and ends with a
   * non-space character of s.
   */
  function Trim(s: string): (r: string)
    ensures r == "" <==> AllSpace(s)
    ensures r != "" ==> !IsSpace(r[0]) && !IsSpace(r[|r| - 1])
    ensures |r| <= |s|
  {
    var a := LeadingSpaces(s);
    var t := s[a..];
    var b := TrailingSpaces(t);
    assert t[..|t| - b] == "" ==> AllSpace(s) by {
      if t[..|t| - b] == "" {
        assert a == |s|;
      }
    }
    t[..|t| - b]
  }

  // ---------------------------------------------------------------------------
  // Character-wise string transformations

  /** The concatenation of f(c) over the characters c of s (a `replace` or case mapping). */
  function MapChars(s: string, f: char -> string): string
    decreases |s|
  {
    if s == [] then "" else f(s[0]) + MapChars(s[1..], f)
  }

  lemma {:induction false} MapCharsAppend(s: string, t: string, f: char -> string)
    ensures MapChars(s + t, f) == MapChars(s, f) + MapChars(t, f)
    decreases |s|
  {
    if s == [] {
      assert s + t == t;
    } else {
      assert (s + t)[1..] == s[1..] + t;
      MapCharsAppend(s[1..], t, f);
    }
  }

  /** A mapping that leaves every character of s alone leaves s alone. */
  lemma {:induction false} MapCharsFixed(s: string, f: char -> string)
    requires forall i :: 0 <= i < |s| ==> f(s[i]) == [s[i]]
    ensures MapChars(s, f) == s
    decreases |s|
  {
    if s != [] {
      MapCharsFixed(s[1..], f);
    }
  }

  /**
   * A per-character mapping carries a character property through: when every
   * character of s satisfies Q and f maps Q-characters to P-characters, every
   * character of the output satisfies P.
   */
  lemma {:induction false} MapCharsCarries(s: string, f: char -> string, Q: char -> bool, P: char -> bool)
    requires forall i :: 0 <= i < |s| ==> Q(s[i])
    requires forall c, d :: Q(c) && d in f(c) ==> P(d)
    ensures forall i :: 0 <= i < |MapChars(s, f)| ==> P(MapChars(s, f)[i])
    decreases |s|
  {
    if s != [] {
      MapCharsCarries(s[1..], f, Q, P);
      var r := MapChars(s, f);
      forall i | 0 <= i < |r| ensures P(r[i]) {
        if i < |f(s[0])| {
          assert r[i] in f(s[0]);
        } else {
          assert r[i] == MapChars(s[1..], f)[i - |f(s[0])|];
        }
      }
    }
  }

  // ---------------------------------------------------------------------------
  // Case mapping

  predicate IsLatin1Upper(c: char)
  {
    '\U{00C0}' <= c <= '\U{00DE}' && c != '\U{00D7}'
  }

  predicate IsLatin1Lower(c: char)
  {
    '\U{00E0}' <= c <= '\U{00FE}' && c != '\U{00F7}'
  }

  /** `toLowerCase` of one character (locale-independent, so `I` becomes `i`, and `İ` becomes `i` plus a combining dot). */
  function LowerChar(c: char): string
  {
    if 'A' <= c <= 'Z' || IsLatin1Upper(c) then [(c as int + 32) as char]
    else if c == 'Ğ' then "ğ"
    else if c == 'Ş' then "ş"
    else if c == 'İ' then "i\U{0307}"
    else [c]
  }

  /** `toUpperCase` of one character (locale-independent, so `ı` and `i` both become `I`, `ß` becomes `SS`, the micro sign a Greek capital mu). */
  function UpperChar(c: char): string
  {
    if 'a' <= c <= 'z' || IsLatin1Lower(c) then [(c as int - 32) as char]
    else if c == 'ÿ' then "Ÿ"
    else if c == 'µ' then "\U{039C}"
    else if c == 'ß' then "SS"
    else if c == 'ğ' then "Ğ"
    else if c == 'ş' then "Ş"
    else if c == 'ı' then "I"
    else [c]
  }

  function ToLower(s: string): string
  {
    MapChars(s, LowerChar)
  }

  function ToUpper(s: string): string
  {
    MapChars(s, UpperChar)
  }

  /** A character `toLowerCase` leaves as it is. */
  predicate Lowered(c: char)
  {
    LowerChar(c) == [c]
  }

  /** Lower-casing produces characters lower-casing leaves alone. */
  lemma LowerCharLowers()
    ensures forall c, d :: d in LowerChar(c) ==> Lowered(d)
  {
    forall c, d | d in LowerChar(c) ensures Lowered(d) {
      if 'A' <= c <= 'Z' || IsLatin1Upper(c) {
        assert d == (c as int + 32) as char;
      }
    }
  }

  /** Lower-casing twice is lower-casing once. */
  lemma ToLowerIdempotent(s: string)
    ensures ToLower(ToLower(s)) == ToLower(s)
  {
    LowerCharLowers();
    MapCharsCarries(s, LowerChar, c => true, Lowered);
    MapCharsFixed(ToLower(s), LowerChar);
  }

  /** Lower-casing never empties a string: every character maps to at least one. */
  lemma {:induction false} ToLowerEmptyIff(s: string)
    ensures ToLower(s) == "" <==> s == ""
    decreases |s|
  {
    if s != [] {
      assert |LowerChar(s[0])| >= 1;
      assert ToLower(s) == LowerChar(s[0]) + ToLower(s[1..]);
    }
  }

  /** After `toLowerCase` no ASCII capital letter is left. */
  lemma ToLowerNoAsciiUpper(s: string)
    ensures forall i :: 0 <= i < |ToLower(s)| ==> !('A' <= ToLower(s)[i] <= 'Z')
  {
    MapCharsCarries(s, LowerChar, c => true, c => !('A' <= c <= 'Z'));
  }

  /** `toLowerCase` keeps a string with no letter to change as it is (digits, `@`, `+`, ...). */
  lemma ToLowerFixed(s: string)
    requires forall i :: 0 <= i < |s| ==> LowerChar(s[i]) == [s[i]]
    ensures ToLower(s) == s
  {
    MapCharsFixed(s, LowerChar);
  }
}
