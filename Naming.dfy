/** Request-parameter and project-name checks shared by both backends. */
module Naming {

  /** A string parameter counts as given when it is truthy and is not the
      literal text "undefined" (what a client sends for a missing value). */
  predicate Present(s: string)
  {
    s != "" && s != "undefined"
  }

  /** ASCII lower-casing of one character. */
  function LowerChar(c: char): (d: char)
    ensures 'A' <= c <= 'Z' ==> d as int == c as int + 32
    ensures !('A' <= c <= 'Z') ==> d == c
  {
    if 'A' <= c <= 'Z' then (c as int + 32) as char else c
  }

  /** `toLowerCase()`, restricted to ASCII letters. */
  function Lower(s: string): (r: string)
    ensures |r| == |s|
    ensures forall i :: 0 <= i < |s| ==> r[i] == LowerChar(s[i])
  {
    seq(|s|, i requires 0 <= i < |s| => LowerChar(s[i]))
  }

  /** Two project names clash when they are equal after lower-casing. */
  predicate SameIgnoringCase(a: string, b: string)
  {
    Lower(a) == Lower(b)
  }

  /** Lower-casing a lower-cased name changes nothing, so a name clashes
      with its own lower-case form. */
  lemma LowerIdempotent(s: string)
    ensures Lower(Lower(s)) == Lower(s)
    ensures SameIgnoringCase(s, Lower(s))
  {
    forall i | 0 <= i < |s| ensures LowerChar(LowerChar(s[i])) == LowerChar(s[i]) {
      var c := s[i];
      if 'A' <= c <= 'Z' {
        assert 'a' <= LowerChar(c) <= 'z';
      }
    }
  }

  /** A numeric request argument as the create handlers see it: missing
      (which `isNaN` rejects), `null` (which `isNaN` lets through) or a number. */
  datatype Arg = Undefined | Null | Num(value: int)

  /** The handlers' defaulting of a `null` argument to position 0. */
  function ArgOrZero(a: Arg): (p: int)
    requires !a.Undefined?
    ensures a.Num? ==> p == a.value
    ensures a.Null? ==> p == 0
  {
    if a.Num? then a.value else 0
  }

  predicate IsDigit(c: char)
  {
    '0' <= c <= '9'
  }

  /** The white space and line terminators `Number()` trims: tab, line
      tab, form feed, space, no-break space, byte order mark, the other
      space separators, line feed, carriage return and the line and
      paragraph separators. */
  predicate IsSpace(c: char)
  {
    || c == '\t' || c == '\U{000B}' || c == '\U{000C}' || c == ' '
    || c == '\U{00A0}' || c == '\U{FEFF}' || c == '\U{1680}'
    || ('\U{2000}' <= c <= '\U{200A}') || c == '\U{202F}' || c == '\U{205F}' || c == '\U{3000}'
    || c == '\n' || c == '\r' || c == '\U{2028}' || c == '\U{2029}'
  }

  /** Digits with at most one decimal point and at least one digit. */
  predicate UnsignedDecimal(t: string)
  {
    && (exists i :: 0 <= i < |t| && IsDigit(t[i]))
    && (forall i :: 0 <= i < |t| ==> IsDigit(t[i]) || t[i] == '.')
    && (forall i, j :: 0 <= i < j < |t| && t[i] == '.' ==> t[j] != '.')
  }

  /** `s` without leading and trailing white space. */
  function Trim(s: string): (t: string)
    ensures |t| <= |s|
    ensures t != [] ==> !IsSpace(t[0]) && !IsSpace(t[|t| - 1])
    decreases |s|
  {
    if s == [] then []
    else if IsSpace(s[0]) then Trim(s[1..])
    else if IsSpace(s[|s| - 1]) then Trim(s[..|s| - 1])
    else s
  }

  /** Whether `Number(s)` is a number, i.e. `isNaN(s)` is false: blank text
      (which converts to 0) or an optionally signed decimal numeral. */
  predicate IsNumeric(s: string)
  {
    var t := Trim(s);
    t == [] ||
    UnsignedDecimal(t) ||
    ((t[0] == '-' || t[0] == '+') && UnsignedDecimal(t[1..]))
  }

  /** The referential backend's test for a project, item or element name:
      given, not the texts "undefined" or "null", and not a number. */
  predicate NameAccepted(name: string)
  {
    Present(name) && name != "null" && !IsNumeric(name)
  }

  /** A name that is a number is refused: digits with at most one decimal
      point, optionally signed. */
  lemma NumericNamesRefused(s: string)
    requires UnsignedDecimal(s) || (|s| > 1 && (s[0] == '-' || s[0] == '+') && UnsignedDecimal(s[1..]))
    ensures !NameAccepted(s)
  {
    assert !IsSpace(s[0]) by {
      if UnsignedDecimal(s) {
        assert IsDigit(s[0]) || s[0] == '.';
      }
    }
    assert !IsSpace(s[|s| - 1]) by {
      if UnsignedDecimal(s) {
        assert IsDigit(s[|s| - 1]) || s[|s| - 1] == '.';
      } else {
        assert s[|s| - 1] == s[1..][|s| - 2];
      }
    }
    assert Trim(s) == s;
  }

  /** An ASCII letter. */
  predicate IsLetter(c: char)
  {
    'a' <= c <= 'z' || 'A' <= c <= 'Z'
  }

  /** A name that starts with a letter, in either case, is accepted unless
      it is one of the two reserved words. */
  lemma LetterNamesAccepted(s: string)
    requires |s| > 0 && IsLetter(s[0])
    requires s != "undefined" && s != "null"
    ensures NameAccepted(s)
  {
    TrimKeepsLeadingLetter(s);
  }

  lemma {:induction false} TrimKeepsLeadingLetter(s: string)
    requires |s| > 0 && IsLetter(s[0])
    ensures |Trim(s)| > 0 && Trim(s)[0] == s[0]
    decreases |s|
  {
    if IsSpace(s[|s| - 1]) {
      TrimKeepsLeadingLetter(s[..|s| - 1]);
    }
  }

  /** Trailing white space after a decimal numeral is trimmed away. */
  lemma {:induction false} TrimDropsTrailingSpace(s: string, v: string)
    requires UnsignedDecimal(s)
    requires forall i :: 0 <= i < |v| ==> IsSpace(v[i])
    ensures Trim(s + v) == s
    decreases |v|
  {
    assert IsDigit(s[0]) || s[0] == '.';
    assert (s + v)[0] == s[0];
    if v == [] {
      assert s + v == s;
      assert IsDigit(s[|s| - 1]) || s[|s| - 1] == '.';
    } else {
      assert (s + v)[|s + v| - 1] == v[|v| - 1];
      assert (s + v)[..|s + v| - 1] == s + v[..|v| - 1];
      TrimDropsTrailingSpace(s, v[..|v| - 1]);
    }
  }

  /** White space on either side of a decimal numeral is trimmed away. */
  lemma {:induction false} TrimSkipsLeadingSpace(w: string, s: string, v: string)
    requires forall i :: 0 <= i < |w| ==> IsSpace(w[i])
    requires UnsignedDecimal(s)
    requires forall i :: 0 <= i < |v| ==> IsSpace(v[i])
    ensures Trim(w + s + v) == s
    decreases |w|
  {
    if w == [] {
      assert w + s + v == s + v;
      TrimDropsTrailingSpace(s, v);
    } else {
      assert (w + s + v)[0] == w[0];
      assert (w + s + v)[1..] == w[1..] + s + v;
      TrimSkipsLeadingSpace(w[1..], s, v);
    }
  }

  /** A number with white space that `Number()` trims on either side, such
      as `"\v5"` or `" 12.5\n"`, is still a number, so the name is refused. */
  lemma SpacedNumberRefused(w: string, s: string, v: string)
    requires forall i :: 0 <= i < |w| ==> IsSpace(w[i])
    requires UnsignedDecimal(s)
    requires forall i :: 0 <= i < |v| ==> IsSpace(v[i])
    ensures !NameAccepted(w + s + v)
  {
    TrimSkipsLeadingSpace(w, s, v);
  }
}
