/**
 * String helpers shared by the listing filters, the booking badges and the chat:
 * ASCII case mapping, JavaScript's `String.prototype.includes`, `trim`,
 * and decimal rendering and parsing of numbers.
 */
module Text {
  import opened Wrappers

  // ---------------------------------------------------------------- case mapping

  predicate IsUpper(c: char) { 'A' <= c <= 'Z' }
  predicate IsLower(c: char) { 'a' <= c <= 'z' }

  /** `toLowerCase` on one character, restricted to ASCII letters. */
  function LowerChar(c: char): (r: char)
    ensures IsUpper(c) ==> IsLower(r) && r as int == c as int + 32
    ensures !IsUpper(c) ==> r == c
  {
    if IsUpper(c) then (c as int + 32) as char else c
  }

  /** `toUpperCase` on one character, restricted to ASCII letters. */
  function UpperChar(c: char): (r: char)
    ensures IsLower(c) ==> IsUpper(r) && r as int == c as int - 32
    ensures !IsLower(c) ==> r == c
  {
    if IsLower(c) then (c as int - 32) as char else c
  }

  /** `toLowerCase` on a whole string. */
  function Lower(s: string): (r: string)
    ensures |r| == |s|
    ensures forall i :: 0 <= i < |s| ==> r[i] == LowerChar(s[i])
  {
    if s == [] then [] else [LowerChar(s[0])] + Lower(s[1..])
  }

  lemma {:induction false} LowerIdempotent(s: string)
    ensures Lower(Lower(s)) == Lower(s)
  {
    var l := Lower(s);
    assert forall i :: 0 <= i < |s| ==> LowerChar(l[i]) == l[i];
  }

  // ---------------------------------------------------------------- substring search

  /** `q` occurs in `s` starting at index `i`. */
  ghost predicate OccursAt(s: string, q: string, i: int)
  {
    0 <= i && i + |q| <= |s| && s[i..i + |q|] == q
  }

  /** `s.includes(q)`: test every start position from the left. */
  function Includes(s: string, q: string): bool
  {
    q <= s || (|s| > 0 && Includes(s[1..], q))
  }

  /** An occurrence in the tail is an occurrence one place further right in the whole. */
  lemma OccursInTail(s: string, q: string, i: int)
    requires |s| > 0 && 0 <= i
    ensures OccursAt(s[1..], q, i) <==> OccursAt(s, q, i + 1)
  {
    if 0 <= i && i + |q| <= |s| - 1 {
      assert s[1..][i..i + |q|] == s[i + 1..i + 1 + |q|];
    }
  }

  /** `includes` holds exactly when the query occurs at some index. */
  lemma {:induction false} IncludesIff(s: string, q: string)
    ensures Includes(s, q) <==> exists i :: OccursAt(s, q, i)
  {
    if q <= s {
      assert OccursAt(s, q, 0);
    } else if |s| == 0 {
      assert forall i :: !OccursAt(s, q, i);
    } else {
      IncludesIff(s[1..], q);
      assert !OccursAt(s, q, 0);
      if Includes(s[1..], q) {
        var i :| OccursAt(s[1..], q, i);
        OccursInTail(s, q, i);
      } else {
        forall i | OccursAt(s, q, i) ensures false {
          OccursInTail(s, q, i - 1);
        }
      }
    }
  }

  /** The empty string is included in every string. */
  lemma EmptyIncluded(s: string)
    ensures Includes(s, "")
  {
  }

  /** Case-insensitive `field.toLowerCase().includes(query.toLowerCase())`. */
  function MatchesText(field: string, query: string): bool
  {
    Includes(Lower(field), Lower(query))
  }

  /** `fields.some(f => f.toLowerCase().includes(query.toLowerCase()))`. */
  function AnyMatches(fields: seq<string>, query: string): (r: bool)
    ensures r <==> exists k :: 0 <= k < |fields| && MatchesText(fields[k], query)
  {
    if fields == [] then false
    else MatchesText(fields[0], query) || AnyMatches(fields[1..], query)
  }

  /**
   * Reference meaning of a case-insensitive search over several fields:
   * the lower-cased query occurs at some index of some lower-cased field.
   */
  ghost predicate SearchHit(fields: seq<string>, query: string)
  {
    exists k, i :: 0 <= k < |fields| && OccursAt(Lower(fields[k]), Lower(query), i)
  }

  lemma MatchesTextIff(field: string, query: string)
    ensures MatchesText(field, query) ==> exists i :: OccursAt(Lower(field), Lower(query), i)
    ensures (exists i :: OccursAt(Lower(field), Lower(query), i)) ==> MatchesText(field, query)
  {
    IncludesIff(Lower(field), Lower(query));
  }

  lemma AnyMatchesIsSearchHit(fields: seq<string>, query: string)
    ensures AnyMatches(fields, query) <==> SearchHit(fields, query)
  {
    forall k | 0 <= k < |fields|
      ensures MatchesText(fields[k], query) <==> exists i :: OccursAt(Lower(fields[k]), Lower(query), i)
    {
      MatchesTextIff(fields[k], query);
    }
    if AnyMatches(fields, query) {
      var k :| 0 <= k < |fields| && MatchesText(fields[k], query);
      var i :| OccursAt(Lower(fields[k]), Lower(query), i);
      assert SearchHit(fields, query);
    }
    if SearchHit(fields, query) {
      var k, i :| 0 <= k < |fields| && OccursAt(Lower(fields[k]), Lower(query), i);
      assert MatchesText(fields[k], query);
    }
  }

  /**
   * The search of the listing pages: the first field, the second field or some of
   * the remaining fields contains the query, ignoring case.
   */
  function MatchesFields(a: string, b: string, rest: seq<string>, query: string): bool
  {
    MatchesText(a, query) || MatchesText(b, query) || AnyMatches(rest, query)
  }

  /** The three-clause search is the reference search over all the fields together. */
  lemma MatchesFieldsIsSearchHit(a: string, b: string, rest: seq<string>, query: string)
    ensures MatchesFields(a, b, rest, query) <==> SearchHit([a, b] + rest, query)
  {
    var f := [a, b] + rest;
    AnyMatchesIsSearchHit(f, query);
    assert f[2..] == rest;
    assert AnyMatches(f, query) == (MatchesText(f[0], query) || AnyMatches(f[1..], query));
    assert f[1..][1..] == f[2..];
  }

  /** An empty query matches any non-empty list of fields. */
  lemma {:induction false} EmptyQueryMatches(fields: seq<string>)
    requires |fields| > 0
    ensures AnyMatches(fields, "")
  {
    EmptyIncluded(Lower(fields[0]));
  }

  // ---------------------------------------------------------------- whitespace

  /**
   * The characters that `String.prototype.trim` removes: the white space and
   * line terminators of section 12.2 and 12.3 of ECMA-262.
   */
  predicate IsWhitespace(c: char)
  {
    || c == ' ' || c == '\t' || c == '\n' || c == '\r' || c == '\U{B}' || c == '\U{C}'
    || c == '\U{A0}' || c == '\U{1680}' || ('\U{2000}' <= c <= '\U{200A}')
    || c == '\U{2028}' || c == '\U{2029}' || c == '\U{202F}' || c == '\U{205F}'
    || c == '\U{3000}' || c == '\U{FEFF}'
  }

  function TrimStart(s: string): (r: string)
    ensures |r| <= |s| && r == s[|s| - |r|..]
    ensures r == [] || !IsWhitespace(r[0])
    ensures forall i :: 0 <= i < |s| - |r| ==> IsWhitespace(s[i])
  {
    if s != [] && IsWhitespace(s[0]) then TrimStart(s[1..]) else s
  }

  function TrimEnd(s: string): (r: string)
    ensures |r| <= |s| && r == s[..|r|]
    ensures r == [] || !IsWhitespace(r[|r| - 1])
    ensures forall i :: |r| <= i < |s| ==> IsWhitespace(s[i])
  {
    if s != [] && IsWhitespace(s[|s| - 1]) then TrimEnd(s[..|s| - 1]) else s
  }

  /** `s.trim()`. */
  function Trim(s: string): string
  {
    TrimEnd(TrimStart(s))
  }

  /** `!s.trim()`: the string is empty after trimming exactly when it is all whitespace. */
  lemma TrimEmptyIff(s: string)
    ensures Trim(s) == "" <==> forall i :: 0 <= i < |s| ==> IsWhitespace(s[i])
  {
    var t := TrimStart(s);
    if Trim(s) == "" {
      forall i | 0 <= i < |s| ensures IsWhitespace(s[i]) {
        if i >= |s| - |t| {
          assert s[i] == t[i - (|s| - |t|)];
        }
      }
    } else {
      var r := Trim(s);
      assert !IsWhitespace(r[0]);
      assert r[0] == t[0] == s[|s| - |t|];
    }
  }

  // ---------------------------------------------------------------- decimal numbers

  predicate IsDigit(c: char) { '0' <= c <= '9' }

  predicate AllDigits(s: string) { forall i :: 0 <= i < |s| ==> IsDigit(s[i]) }

  function DigitChar(d: nat): (c: char)
    requires d < 10
    ensures IsDigit(c)
  {
    ('0' as int + d) as char
  }

  function DigitValue(c: char): (d: nat)
    requires IsDigit(c)
    ensures d < 10 && DigitChar(d) == c
  {
    c as int - '0' as int
  }

  /** `n.toString()` for a natural number: shortest decimal, no leading zero. */
  function NatToString(n: nat): (s: string)
    ensures |s| >= 1 && AllDigits(s)
    ensures |s| > 1 ==> s[0] != '0'
  {
    if n < 10 then [DigitChar(n)] else NatToString(n / 10) + [DigitChar(n % 10)]
  }

  /** The value of a string of decimal digits. */
  function ParseDigits(s: string): nat
    requires AllDigits(s)
  {
    if s == [] then 0 else ParseDigits(s[..|s| - 1]) * 10 + DigitValue(s[|s| - 1])
  }

  lemma {:induction false} ParseNatToString(n: nat)
    ensures ParseDigits(NatToString(n)) == n
  {
    if n >= 10 {
      var s := NatToString(n);
      assert s[..|s| - 1] == NatToString(n / 10);
      ParseNatToString(n / 10);
    }
  }

  /** `NatToString` is injective: distinct numbers render differently. */
  lemma NatToStringInjective(m: nat, n: nat)
    requires NatToString(m) == NatToString(n)
    ensures m == n
  {
    ParseNatToString(m);
    ParseNatToString(n);
  }

  /**
   * `parseFloat` on a rating, in tenths: `"4"` is 40 and `"4.5"` is 45.
   * `None` plays the part of `NaN`; every other shape of string reads as `None`.
   */
  function ParseTenths(s: string): Option<nat>
  {
    if |s| >= 3 && s[|s| - 2] == '.' && AllDigits(s[..|s| - 2]) && IsDigit(s[|s| - 1]) then
      Some(ParseDigits(s[..|s| - 2]) * 10 + DigitValue(s[|s| - 1]))
    else if |s| >= 1 && AllDigits(s) then
      Some(ParseDigits(s) * 10)
    else
      None
  }

  /** A rating in tenths written with one decimal place, as the rating menu writes it. */
  function ShowTenths(t: nat): string
  {
    NatToString(t / 10) + ['.', DigitChar(t % 10)]
  }

  /** Parsing a rendered rating gives the rating back. */
  lemma ParseShowTenths(t: nat)
    ensures ParseTenths(ShowTenths(t)) == Some(t)
  {
    var s := ShowTenths(t);
    assert s[..|s| - 2] == NatToString(t / 10);
    ParseNatToString(t / 10);
  }

  // ---------------------------------------------------------------- capitalisation

  /** `s.charAt(0).toUpperCase() + s.slice(1)`. */
  function Capitalize(s: string): (r: string)
    ensures |r| == |s|
    ensures s != [] ==> r[0] == UpperChar(s[0]) && r[1..] == s[1..]
  {
    if s == [] then "" else [UpperChar(s[0])] + s[1..]
  }
}
