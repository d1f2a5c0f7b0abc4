/** String helpers with the meaning JavaScript gives them (`trim`, `startsWith`, `includes`, ...). */
module Text {

  /** The characters ECMAScript's `String.prototype.trim` removes: white space and line terminators. */
  predicate IsWhitespace(c: char) {
    c == ' ' || c == '\t' || c == '\n' || c == '\r' || c == '\U{B}' || c == '\U{C}'
    || c == '\U{A0}' || c == '\U{1680}' || ('\U{2000}' <= c <= '\U{200A}')
    || c == '\U{2028}' || c == '\U{2029}' || c == '\U{202F}' || c == '\U{205F}' || c == '\U{3000}' || c == '\U{FEFF}'
  }

  predicate AllWhitespace(s: string) {
    forall i :: 0 <= i < |s| ==> IsWhitespace(s[i])
  }

  /** `s` without its leading white space. */
  function TrimStart(s: string): string
    decreases |s|
  {
    if s != [] && IsWhitespace(s[0]) then TrimStart(s[1..]) else s
  }

  /** `s` without its trailing white space. */
  function TrimEnd(s: string): string
    decreases |s|
  {
    if s != [] && IsWhitespace(s[|s| - 1]) then TrimEnd(s[..|s| - 1]) else s
  }

  /** `s.trim()` */
  function Trim(s: string): string {
    TrimEnd(TrimStart(s))
  }

  /** `TrimStart` drops a white-space prefix and stops at the first other character. */
  lemma {:induction false} TrimStartSpec(s: string)
    ensures var r := TrimStart(s);
      |r| <= |s| && r == s[|s| - |r|..] && AllWhitespace(s[..|s| - |r|]) && (r != [] ==> !IsWhitespace(r[0]))
    decreases |s|
  {
    if s != [] && IsWhitespace(s[0]) {
      TrimStartSpec(s[1..]);
      var r := TrimStart(s[1..]);
      assert s[..|s| - |r|] == [s[0]] + s[1..][..|s[1..]| - |r|];
    } else {
      assert s[..0] == [];
    }
  }

  /** `TrimEnd` drops a white-space suffix and stops at the last other character. */
  lemma {:induction false} TrimEndSpec(s: string)
    ensures var r := TrimEnd(s);
      |r| <= |s| && r == s[..|r|] && AllWhitespace(s[|r|..]) && (r != [] ==> !IsWhitespace(r[|r| - 1]))
    decreases |s|
  {
    if s != [] && IsWhitespace(s[|s| - 1]) {
      TrimEndSpec(s[..|s| - 1]);
      var r := TrimEnd(s[..|s| - 1]);
      assert s[|r|..] == s[..|s| - 1][|r|..] + [s[|s| - 1]];
    } else {
      assert s[|s|..] == [];
    }
  }

  /** The trim neither starts nor ends with white space, is empty exactly for a blank string, and is no longer than `s`. */
  lemma TrimSpec(s: string)
    ensures var r := Trim(s);
      (r != [] ==> !IsWhitespace(r[0]) && !IsWhitespace(r[|r| - 1]))
      && (r == [] <==> AllWhitespace(s))
      && |r| <= |s|
  {
    TrimStartSpec(s);
    var a := TrimStart(s);
    TrimEndSpec(a);
    var r := TrimEnd(a);
    if r == [] {
      assert a[|r|..] == a;
      assert a == [];
      assert s[..|s| - |a|] == s;
    } else {
      assert r[0] == a[0] && a[0] == s[|s| - |a|];
      assert r[|r| - 1] == a[|r| - 1];
    }
  }

  lemma {:induction false} TrimStartOfNonWhitespace(s: string)
    requires s == [] || !IsWhitespace(s[0])
    ensures TrimStart(s) == s
  {
  }

  lemma {:induction false} TrimEndOfNonWhitespace(s: string)
    requires s == [] || !IsWhitespace(s[|s| - 1])
    ensures TrimEnd(s) == s
  {
  }

  /** Trimming twice is trimming once. */
  lemma TrimIdempotent(s: string)
    ensures Trim(Trim(s)) == Trim(s)
  {
    TrimSpec(s);
    var r := Trim(s);
    TrimStartOfNonWhitespace(r);
    TrimEndOfNonWhitespace(r);
  }

  /** A string that starts and ends with a non-blank character is its own trim. */
  lemma TrimOfTrimmed(s: string)
    requires s != [] && !IsWhitespace(s[0]) && !IsWhitespace(s[|s| - 1])
    ensures Trim(s) == s
  {
    TrimStartOfNonWhitespace(s);
    TrimEndOfNonWhitespace(s);
  }

  /** `s.startsWith(p)` */
  predicate StartsWith(s: string, p: string) {
    |p| <= |s| && s[..|p|] == p
  }

  /** `s.includes(t)`: `t` starts at some position of `s`. */
  predicate Contains(s: string, t: string)
    decreases |s|
  {
    StartsWith(s, t) || (s != [] && Contains(s[1..], t))
  }

  /** `t` occurs in `s` starting at index `i`. */
  predicate OccursAt(s: string, t: string, i: int) {
    0 <= i && i + |t| <= |s| && s[i..i + |t|] == t
  }

  /** `Contains` is the search for an index where `t` occurs. */
  lemma {:induction false} ContainsIffOccurs(s: string, t: string)
    ensures Contains(s, t) <==> exists i :: OccursAt(s, t, i)
    decreases |s|
  {
    if StartsWith(s, t) {
      assert s[0..|t|] == s[..|t|];
      assert OccursAt(s, t, 0);
    }
    if s != [] {
      ContainsIffOccurs(s[1..], t);
      if exists i :: OccursAt(s[1..], t, i) {
        var i :| OccursAt(s[1..], t, i);
        assert s[i + 1..i + 1 + |t|] == s[1..][i..i + |t|];
        assert OccursAt(s, t, i + 1);
      }
      if exists i :: OccursAt(s, t, i) {
        var i :| OccursAt(s, t, i);
        if i > 0 {
          assert s[1..][i - 1..i - 1 + |t|] == s[i..i + |t|];
          assert OccursAt(s[1..], t, i - 1);
        } else {
          assert StartsWith(s, t);
        }
      }
    }
  }

  /** A witness-producing form of `Contains` for use in proofs. */
  lemma ContainsAt(s: string, t: string, i: nat)
    requires i + |t| <= |s| && s[i..i + |t|] == t
    ensures Contains(s, t)
  {
    assert OccursAt(s, t, i);
    ContainsIffOccurs(s, t);
  }

  lemma ContainsSelf(s: string)
    ensures Contains(s, s)
  {
    assert StartsWith(s, s);
  }

  /** Occurrence in a part is occurrence in the whole. */
  lemma ContainsInMiddle(a: string, t: string, b: string)
    ensures Contains(a + t + b, t)
  {
    var s := a + t + b;
    assert s[|a|..|a| + |t|] == t;
    ContainsAt(s, t, |a|);
  }

  /** Every character of `t` occurs in a text that contains `t`. */
  lemma ContainsHasChars(s: string, t: string, c: char)
    requires Contains(s, t) && c in t
    ensures c in s
  {
    ContainsIffOccurs(s, t);
    var i :| OccursAt(s, t, i);
    var k :| 0 <= k < |t| && t[k] == c;
    assert s[i..i + |t|][k] == s[i + k];
  }

  /** A text that lacks one of the characters of `t` cannot contain `t`. */
  lemma NotContainsMissingChar(s: string, t: string, c: char)
    requires c in t && c !in s
    ensures !Contains(s, t)
  {
    if Contains(s, t) {
      ContainsHasChars(s, t, c);
    }
  }

  /** `s.indexOf(c)` for a single character, `-1` when absent. */
  function IndexOf(s: string, c: char): (r: int)
    ensures -1 <= r < |s|
    ensures r == -1 <==> c !in s
    ensures r >= 0 ==> s[r] == c && c !in s[..r]
  {
    if s == [] then -1
    else if s[0] == c then 0
    else
      var k := IndexOf(s[1..], c);
      assert s[1..] == s[1..];
      if k == -1 then
        assert forall i :: 0 <= i < |s| ==> (i == 0 || s[i] == s[1..][i - 1]);
        -1
      else
        assert s[..k + 1] == [s[0]] + s[1..][..k];
        k + 1
  }

  /** ASCII upper case to lower case; every other character is kept. */
  function LowerAscii(c: char): char {
    if 'A' <= c <= 'Z' then (c as int + 32) as char else c
  }

  /** A case-insensitive (ASCII) search for `t` in `s`, as the `/…/i` regular expressions of the source do. */
  predicate ContainsIgnoreCase(s: string, t: string) {
    exists i :: 0 <= i <= |s| && OccursAtIgnoreCase(s, t, i)
  }

  /** `t` occurs in `s` at index `i` once both are lowered. */
  predicate OccursAtIgnoreCase(s: string, t: string, i: int) {
    0 <= i && i + |t| <= |s| && forall k :: 0 <= k < |t| ==> LowerAscii(s[i + k]) == LowerAscii(t[k])
  }

  /** An exact occurrence is also a case-insensitive one. */
  lemma ContainsIsContainsIgnoreCase(s: string, t: string)
    requires Contains(s, t)
    ensures ContainsIgnoreCase(s, t)
  {
    ContainsIffOccurs(s, t);
    var i :| OccursAt(s, t, i);
    forall k | 0 <= k < |t| ensures LowerAscii(s[i + k]) == LowerAscii(t[k]) {
      assert s[i..i + |t|][k] == s[i + k];
    }
    assert OccursAtIgnoreCase(s, t, i);
  }

  /** `s.replace(/\/$/, '')`: drop one trailing slash. */
  function StripTrailingSlash(s: string): (r: string)
    ensures s != [] && s[|s| - 1] == '/' ==> r == s[..|s| - 1]
    ensures (s == [] || s[|s| - 1] != '/') ==> r == s
  {
    if s != [] && s[|s| - 1] == '/' then s[..|s| - 1] else s
  }
}
