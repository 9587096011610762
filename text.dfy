/**
 * The two string operations the seller workflow relies on: Python's
 * `str.strip()` with no argument, used by the business-name lookup and by every
 * character field of the serializers (which trim their input), and the
 * upper-casing comparison behind a case-insensitive exact match.
 */
module Text {

  /** Python's `str.isspace()` on one character: the characters `strip()` removes. */
  predicate IsSpace(c: char)
  {
    || '\t' <= c <= '\r'
    || '\U{1c}' <= c <= '\U{1f}'
    || c == ' ' || c == '\U{85}' || c == '\U{a0}' || c == '\U{1680}'
    || '\U{2000}' <= c <= '\U{200a}'
    || c == '\U{2028}' || c == '\U{2029}' || c == '\U{202f}' || c == '\U{205f}' || c == '\U{3000}'
  }

  predicate AllSpace(s: string)
  {
    forall i :: 0 <= i < |s| ==> IsSpace(s[i])
  }

  /** The number of whitespace characters that open `s`. */
  function LeadingSpaces(s: string): (n: nat)
    ensures n <= |s|
    ensures forall i :: 0 <= i < n ==> IsSpace(s[i])
    ensures n == |s| || !IsSpace(s[n])
  {
    if s != [] && IsSpace(s[0]) then 1 + LeadingSpaces(s[1..]) else 0
  }

  /** The number of whitespace characters that close `s`. */
  function TrailingSpaces(s: string): (n: nat)
    ensures n <= |s|
    ensures forall i :: |s| - n <= i < |s| ==> IsSpace(s[i])
    ensures n == |s| || !IsSpace(s[|s| - 1 - n])
  {
    if s != [] && IsSpace(s[|s| - 1]) then 1 + TrailingSpaces(s[..|s| - 1]) else 0
  }

  /** `s.strip()`: `s` without its leading and trailing whitespace. */
  function Trim(s: string): (r: string)
    ensures |r| <= |s|
    ensures r == [] || (!IsSpace(r[0]) && !IsSpace(r[|r| - 1]))
    ensures r == [] <==> AllSpace(s)
  {
    var rest := s[LeadingSpaces(s)..];
    rest[..|rest| - TrailingSpaces(rest)]
  }

  /** A string whose two ends are not whitespace is what `strip()` leaves. */
  predicate Stripped(t: string)
  {
    t == [] || (!IsSpace(t[0]) && !IsSpace(t[|t| - 1]))
  }

  lemma LeadingOfPadded(pad: string, t: string, tail: string)
    requires AllSpace(pad) && t != [] && !IsSpace(t[0])
    ensures LeadingSpaces(pad + t + tail) == |pad|
  {
    var s := pad + t + tail;
    assert s[|pad|] == t[0];
    assert forall i :: 0 <= i < |pad| ==> s[i] == pad[i];
  }

  lemma TrailingOfPadded(head: string, t: string, pad: string)
    requires AllSpace(pad) && t != [] && !IsSpace(t[|t| - 1])
    ensures TrailingSpaces(head + t + pad) == |pad|
  {
    var s := head + t + pad;
    assert s[|s| - 1 - |pad|] == t[|t| - 1];
    assert forall i :: |s| - |pad| <= i < |s| ==> s[i] == pad[i - (|s| - |pad|)];
  }

  /** Whitespace around a stripped string is exactly what `Trim` removes. */
  lemma {:induction false} TrimPadded(before: string, t: string, after: string)
    requires AllSpace(before) && AllSpace(after) && Stripped(t)
    ensures Trim(before + t + after) == t
  {
    var s := before + t + after;
    if t == [] {
      assert AllSpace(s) by {
        forall i | 0 <= i < |s| ensures IsSpace(s[i]) {
          if i < |before| { assert s[i] == before[i]; } else { assert s[i] == after[i - |before|]; }
        }
      }
    } else {
      LeadingOfPadded(before, t, after);
      var rest := s[|before|..];
      assert rest == [] + t + after;
      TrailingOfPadded([], t, after);
      assert rest[..|rest| - |after|] == t;
    }
  }

  /** A character that is not whitespace survives stripping. */
  lemma TrimKeepsNonSpace(s: string, i: nat)
    requires i < |s| && !IsSpace(s[i])
    ensures s[i] in Trim(s)
  {
    var lead := LeadingSpaces(s);
    assert lead <= i;
    var rest := s[lead..];
    var trail := TrailingSpaces(rest);
    assert rest[i - lead] == s[i];
    assert i - lead < |rest| - trail;
    assert Trim(s)[i - lead] == s[i];
  }

  /** Stripping twice is stripping once. */
  lemma TrimIdempotent(s: string)
    ensures Trim(Trim(s)) == Trim(s)
  {
    var t := Trim(s);
    assert t == [] + t + [];
    TrimPadded([], t, []);
  }

  /** The upper-case form of an ASCII letter; every other character is left alone. */
  function Upper(c: char): (u: char)
    ensures 'a' <= c <= 'z' ==> u as int == c as int - 32
    ensures !('a' <= c <= 'z') ==> u == c
  {
    if 'a' <= c <= 'z' then (c as int - 32) as char else c
  }

  function UpperAll(s: string): (r: string)
    ensures |r| == |s|
    ensures forall i :: 0 <= i < |s| ==> r[i] == Upper(s[i])
  {
    seq(|s|, i requires 0 <= i < |s| => Upper(s[i]))
  }

  /** A case-insensitive exact match: both sides upper-cased, then compared. */
  predicate EqualsIgnoringCase(a: string, b: string)
  {
    UpperAll(a) == UpperAll(b)
  }

  /** Two strings match case-insensitively exactly when they agree position by position up to case. */
  lemma SameUpToCase(a: string, b: string)
    ensures EqualsIgnoringCase(a, b) <==> |a| == |b| && forall i :: 0 <= i < |a| ==> Upper(a[i]) == Upper(b[i])
  {
    if EqualsIgnoringCase(a, b) {
      forall i | 0 <= i < |a| ensures Upper(a[i]) == Upper(b[i]) {
        assert UpperAll(a)[i] == UpperAll(b)[i];
      }
    }
  }
}
