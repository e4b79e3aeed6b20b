/**
 * The two URL encoders the API client uses and the query strings they
 * produce: `URLSearchParams` (the application/x-www-form-urlencoded
 * serializer of the WHATWG URL Standard) and `encodeURIComponent`
 * (section 19.2.6.5 of ECMA-262). Both percent-encode the UTF-8 bytes of
 * every character they do not keep.
 */
module Url {
  import opened Common
  import opened Text

  // ---------------------------------------------------------------------------
  // UTF-8 and percent-encoding

  /** The UTF-8 encoding of one Unicode scalar value (RFC 3629, section 3). */
  function Utf8(c: char): (r: seq<nat>)
    ensures 1 <= |r| <= 4
    ensures forall i :: 0 <= i < |r| ==> r[i] < 256
    ensures (c as int < 0x80) <==> |r| == 1
  {
    var n := c as int;
    if n < 0x80 then [n]
    else if n < 0x800 then [0xC0 + n / 64, 0x80 + n % 64]
    else if n < 0x10000 then [0xE0 + n / 4096, 0x80 + (n / 64) % 64, 0x80 + n % 64]
    else [0xF0 + n / 262144, 0x80 + (n / 4096) % 64, 0x80 + (n / 64) % 64, 0x80 + n % 64]
  }

  predicate IsUpperHex(c: char)
  {
    '0' <= c <= '9' || 'A' <= c <= 'F'
  }

  function HexDigit(d: nat): (c: char)
    requires d < 16
    ensures IsUpperHex(c)
  {
    if d < 10 then ('0' as int + d) as char else ('A' as int + d - 10) as char
  }

  /** `%XX` for one byte, with upper-case hexadecimal digits. */
  function PercentByte(b: nat): (r: string)
    requires b < 256
    ensures |r| == 3 && r[0] == '%' && IsUpperHex(r[1]) && IsUpperHex(r[2])
  {
    ['%', HexDigit(b / 16), HexDigit(b % 16)]
  }

  function PercentBytes(bytes: seq<nat>): (r: string)
    requires forall i :: 0 <= i < |bytes| ==> bytes[i] < 256
    ensures |r| == 3 * |bytes|
    ensures forall i :: 0 <= i < |r| ==> r[i] == '%' || IsUpperHex(r[i])
    decreases |bytes|
  {
    if bytes == [] then ""
    else
      var rest := PercentBytes(bytes[1..]);
      assert forall i :: 3 <= i < 3 + |rest| ==> (PercentByte(bytes[0]) + rest)[i] == rest[i - 3];
      PercentByte(bytes[0]) + rest
  }

  /** A character percent-encoded as its UTF-8 bytes. */
  function PercentEncode(c: char): (r: string)
    ensures 3 <= |r| <= 12 && r[0] == '%'
    ensures forall d :: d in r ==> d == '%' || IsUpperHex(d)
  {
    PercentBytes(Utf8(c))
  }

  predicate IsAsciiAlnum(c: char)
  {
    'a' <= c <= 'z' || 'A' <= c <= 'Z' || '0' <= c <= '9'
  }

  // ---------------------------------------------------------------------------
  // The two encoders

  /** The characters the form-urlencoded serializer leaves as they are. */
  predicate FormKeeps(c: char)
  {
    IsAsciiAlnum(c) || c == '*' || c == '-' || c == '.' || c == '_'
  }

  /** One character of `URLSearchParams.toString()`: kept, a space as `+`, or percent-encoded. */
  function FormChar(c: char): (r: string)
    ensures FormKeeps(c) ==> r == [c]
    ensures c == ' ' ==> r == "+"
    ensures !FormKeeps(c) && c != ' ' ==> r == PercentEncode(c)
  {
    if FormKeeps(c) then [c] else if c == ' ' then "+" else PercentEncode(c)
  }

  function FormEncode(s: string): string
  {
    MapChars(s, FormChar)
  }

  /** The characters `encodeURIComponent` leaves as they are. */
  predicate UriKeeps(c: char)
  {
    IsAsciiAlnum(c) || c == '-' || c == '_' || c == '.' || c == '!' || c == '~'
    || c == '*' || c == '\'' || c == '(' || c == ')'
  }

  function UriChar(c: char): (r: string)
    ensures UriKeeps(c) ==> r == [c]
    ensures !UriKeeps(c) ==> r == PercentEncode(c)
  {
    if UriKeeps(c) then [c] else PercentEncode(c)
  }

  function EncodeUriComponent(s: string): string
  {
    MapChars(s, UriChar)
  }

  /** Characters that delimit a query string or a URL: none of them survives either encoder. */
  predicate IsDelimiter(c: char)
  {
    c == '&' || c == '=' || c == '?' || c == '#' || c == '/' || c == ':' || c == ' '
  }

  /** A form-encoded string has no delimiter: it cannot split a pair or end the query. */
  lemma FormEncodeHasNoDelimiter(s: string)
    ensures forall i :: 0 <= i < |FormEncode(s)| ==> !IsDelimiter(FormEncode(s)[i])
  {
    MapCharsCarries(s, FormChar, c => true, d => !IsDelimiter(d));
  }

  /** Nor has a string passed through `encodeURIComponent`, which also escapes `+`. */
  lemma EncodeUriComponentHasNoDelimiter(s: string)
    ensures forall i :: 0 <= i < |EncodeUriComponent(s)| ==>
      !IsDelimiter(EncodeUriComponent(s)[i]) && EncodeUriComponent(s)[i] != '+'
  {
    MapCharsCarries(s, UriChar, c => true, d => !IsDelimiter(d) && d != '+');
  }

  /** A word made of letters, digits and `*-._` goes through the form encoder unchanged. */
  lemma FormEncodeKeepsWord(s: string)
    requires forall i :: 0 <= i < |s| ==> FormKeeps(s[i])
    ensures FormEncode(s) == s
  {
    MapCharsFixed(s, FormChar);
  }

  /** The encoders differ: a space is `+` in a form query and `%20` in a component. */
  lemma SpaceEncodings()
    ensures FormEncode(" ") == "+"
    ensures EncodeUriComponent(" ") == "%20"
  {
    assert MapChars(" ", FormChar) == FormChar(' ') + MapChars("", FormChar);
    assert MapChars(" ", UriChar) == UriChar(' ') + MapChars("", UriChar);
    assert Utf8(' ') == [32];
  }

  // ---------------------------------------------------------------------------
  // Query strings

  /** A `key=value` piece read back at its first `=`. */
  function KeyValue(piece: string): (string, string)
    decreases |piece|
  {
    if piece == [] then ("", "")
    else if piece[0] == '=' then ("", piece[1..])
    else var kv := KeyValue(piece[1..]); ([piece[0]] + kv.0, kv.1)
  }

  lemma {:induction false} KeyValueOfPair(k: string, v: string)
    requires Free(k, '=')
    ensures KeyValue(k + "=" + v) == (k, v)
    decreases |k|
  {
    if k != [] {
      assert (k + "=" + v)[0] == k[0] != '=';
      assert (k + "=" + v)[1..] == k[1..] + "=" + v;
      KeyValueOfPair(k[1..], v);
      assert [k[0]] + k[1..] == k;
    } else {
      assert k + "=" + v == "=" + v;
    }
  }

  /** One serialized pair. */
  function PairText(p: (string, string)): string
  {
    FormEncode(p.0) + "=" + FormEncode(p.1)
  }

  /** `URLSearchParams.toString()`: the encoded pairs joined by `&`. */
  function Serialize(pairs: seq<(string, string)>): string
  {
    Join(seq(|pairs|, i requires 0 <= i < |pairs| => PairText(pairs[i])), '&')
  }

  /** The pairs as they appear in the query: both halves form-encoded. */
  function EncodedPairs(pairs: seq<(string, string)>): (r: seq<(string, string)>)
    ensures |r| == |pairs|
  {
    seq(|pairs|, i requires 0 <= i < |pairs| => (FormEncode(pairs[i].0), FormEncode(pairs[i].1)))
  }

  /** Reading a query back: split at `&`, then each piece at its first `=`. */
  function ParseQuery(query: string): seq<(string, string)>
  {
    var pieces := Split(query, '&');
    seq(|pieces|, i requires 0 <= i < |pieces| => KeyValue(pieces[i]))
  }

  /** The query is empty exactly when there are no pairs (each pair has at least its `=`). */
  lemma SerializeEmpty(pairs: seq<(string, string)>)
    ensures Serialize(pairs) == "" <==> pairs == []
  {
    if pairs != [] {
      var texts := seq(|pairs|, i requires 0 <= i < |pairs| => PairText(pairs[i]));
      if |pairs| > 1 {
        assert |Serialize(pairs)| >= |texts[0] + ['&']|;
      } else {
        assert Serialize(pairs) == PairText(pairs[0]);
      }
    }
  }

  /**
   * A serialized query parses back into the encoded pairs, in the order
   * they were appended: encoding leaves no `&` or `=` to confuse the split.
   */
  lemma SerializeParses(pairs: seq<(string, string)>)
    requires pairs != []
    ensures ParseQuery(Serialize(pairs)) == EncodedPairs(pairs)
  {
    var texts := seq(|pairs|, i requires 0 <= i < |pairs| => PairText(pairs[i]));
    forall i | 0 <= i < |texts| ensures Free(texts[i], '&') && KeyValue(texts[i]) == EncodedPairs(pairs)[i] {
      FormEncodeHasNoDelimiter(pairs[i].0);
      FormEncodeHasNoDelimiter(pairs[i].1);
      KeyValueOfPair(FormEncode(pairs[i].0), FormEncode(pairs[i].1));
      var t := texts[i];
      var k := FormEncode(pairs[i].0);
      assert t == k + "=" + FormEncode(pairs[i].1);
      forall j | 0 <= j < |t| ensures t[j] != '&' {
        if j < |k| {
          assert t[j] == k[j];
        } else if j > |k| {
          assert t[j] == FormEncode(pairs[i].1)[j - |k| - 1];
        }
      }
    }
    SplitJoin(texts, '&');
  }

  /** The `URLSearchParams` object a request builder fills by successive `append` calls. */
  class SearchParams {
    var pairs: seq<(string, string)>

    constructor()
      ensures pairs == []
    {
      pairs := [];
    }

    /** `params.append(key, value)`: the pair goes last, after every earlier one. */
    method Append(key: string, value: string)
      modifies this
      ensures pairs == old(pairs) + [(key, value)]
    {
      pairs := pairs + [(key, value)];
    }

    /** `params.toString()`. */
    function ToString(): string
      reads this
    {
      Serialize(pairs)
    }
  }

  /** `` `${path}${query ? `?${query}` : ""}` ``. */
  function WithQuery(path: string, query: string): (r: string)
    ensures query == "" ==> r == path
    ensures query != "" ==> r == path + "?" + query
  {
    if query != "" then path + "?" + query else path
  }
}
