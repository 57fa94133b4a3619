/** String tests the server performs on header names, the Host header and the
    X-Forwarded-Proto header. */
module Strings {

  /** `sub` occurs in `s` at index `i`. */
  ghost predicate OccursAt(s: string, sub: string, i: int) {
    0 <= i && i + |sub| <= |s| && s[i..i + |sub|] == sub
  }

  /** `s.indexOf(sub) != -1`; for a pattern made of letters only, such as
      `policy`, this is also what `/sub/.test(s)` decides. */
  predicate Contains(s: string, sub: string) {
    if sub <= s then true
    else if s == [] then false
    else Contains(s[1..], sub)
  }

  /** `Contains` finds an occurrence exactly when there is one. */
  lemma {:induction false} ContainsMeansOccurs(s: string, sub: string)
    ensures Contains(s, sub) <==> exists i :: OccursAt(s, sub, i)
  {
    if sub <= s {
      assert OccursAt(s, sub, 0);
    } else if s != [] {
      ContainsMeansOccurs(s[1..], sub);
      assert OccursAt(s, sub, 0) ==> sub <= s;
      if i :| OccursAt(s, sub, i) {
        assert s[1..][i - 1..i - 1 + |sub|] == s[i..i + |sub|];
        assert OccursAt(s[1..], sub, i - 1);
      }
      if i :| OccursAt(s[1..], sub, i) {
        assert s[1..][i..i + |sub|] == s[i + 1..i + 1 + |sub|];
        assert OccursAt(s, sub, i + 1);
      }
    }
  }

  /** A string that lacks one of the characters of `sub` cannot contain it. */
  lemma MissingChar(s: string, sub: string, c: char)
    requires c in sub && c !in s
    ensures !Contains(s, sub)
  {
    ContainsMeansOccurs(s, sub);
    var j :| 0 <= j < |sub| && sub[j] == c;
    forall i ensures !OccursAt(s, sub, i) {
      if 0 <= i && i + |sub| <= |s| {
        assert s[i + j] in s;
        assert s[i..i + |sub|][j] == s[i + j];
      }
    }
  }

  /** The characters JavaScript's `trim` removes that can stand in a header
      value as Node decodes it (latin1, with the other control characters
      refused): space, horizontal tab and no-break space. */
  predicate IsSpace(c: char) {
    c == ' ' || c == '\t' || c == '\U{A0}'
  }

  /** `s` with its leading spaces removed. */
  function TrimStart(s: string): string {
    if s != [] && IsSpace(s[0]) then TrimStart(s[1..]) else s
  }

  /** `s` with its trailing spaces removed. */
  function TrimEnd(s: string): string {
    if s != [] && IsSpace(s[|s| - 1]) then TrimEnd(s[..|s| - 1]) else s
  }

  /** TrimStart drops exactly the leading run of spaces: what it keeps is a
      suffix of `s` that does not start with a space. */
  lemma {:induction false} TrimStartDropsLeadingSpaces(s: string)
    ensures var r := TrimStart(s);
      && |r| <= |s| && r == s[|s| - |r|..]
      && (forall i :: 0 <= i < |s| - |r| ==> IsSpace(s[i]))
      && (r != [] ==> !IsSpace(r[0]))
  {
    if s != [] && IsSpace(s[0]) {
      var t := s[1..];
      TrimStartDropsLeadingSpaces(t);
      var r := TrimStart(t);
      assert t[|t| - |r|..] == s[|s| - |r|..];
      forall i | 0 <= i < |s| - |r| ensures IsSpace(s[i]) {
        if i > 0 {
          assert s[i] == t[i - 1];
        }
      }
    }
  }

  /** TrimEnd drops exactly the trailing run of spaces: what it keeps is a
      prefix of `s` that does not end with a space. */
  lemma {:induction false} TrimEndDropsTrailingSpaces(s: string)
    ensures var r := TrimEnd(s);
      && |r| <= |s| && r == s[..|r|]
      && (forall i :: |r| <= i < |s| ==> IsSpace(s[i]))
      && (r != [] ==> !IsSpace(r[|r| - 1]))
  {
    if s != [] && IsSpace(s[|s| - 1]) {
      var t := s[..|s| - 1];
      TrimEndDropsTrailingSpaces(t);
      var r := TrimEnd(t);
      assert t[..|r|] == s[..|r|];
      forall i | |r| <= i < |s| ensures IsSpace(s[i]) {
        if i < |s| - 1 {
          assert s[i] == t[i];
        }
      }
    }
  }

  /** `s.trim()`. */
  function Trim(s: string): string {
    TrimEnd(TrimStart(s))
  }

  /** A value with no space at either end is its own trim. */
  lemma TrimUnpadded(s: string)
    requires s != [] ==> !IsSpace(s[0]) && !IsSpace(s[|s| - 1])
    ensures Trim(s) == s
  {
    var t := TrimStart(s);
    assert t == s;
    var u := TrimEnd(t);
  }

  /** The part of `s` before its first comma, all of `s` when it has none:
      `i !== -1 ? s.substring(0, i) : s` with `i = s.indexOf(',')`. */
  function BeforeComma(s: string): (r: string)
    ensures r <= s && ',' !in r
    ensures |r| < |s| ==> s[|r|] == ','
  {
    if s == [] || s[0] == ',' then [] else [s[0]] + BeforeComma(s[1..])
  }

  /** A single token with no comma and no padding is read back unchanged
      from a comma-separated header. */
  lemma {:induction false} SingleToken(s: string)
    requires ',' !in s
    requires s != [] ==> !IsSpace(s[0]) && !IsSpace(s[|s| - 1])
    ensures Trim(BeforeComma(s)) == s
  {
    var r := BeforeComma(s);
    assert r == s;
    TrimUnpadded(s);
  }
}
