/** Character and string operations that the backend (Python) and the
    frontend (TypeScript) use: lower-casing, `str.title()`, the substring test
    `kw in text`, `str.strip()` / `String.prototype.trim()` and `Array.join`.
    Letter case is modelled for the ASCII letters only. */
module Text {

  predicate IsUpper(c: char) { 'A' <= c <= 'Z' }
  predicate IsLower(c: char) { 'a' <= c <= 'z' }
  predicate IsLetter(c: char) { IsUpper(c) || IsLower(c) }

  function ToLowerChar(c: char): (r: char)
    ensures IsLetter(r) <==> IsLetter(c)
    ensures !IsUpper(r)
    ensures !IsLetter(c) ==> r == c
  {
    if IsUpper(c) then (c as int + 32) as char else c
  }

  function ToUpperChar(c: char): (r: char)
    ensures IsLetter(r) <==> IsLetter(c)
    ensures !IsLower(r)
    ensures ToLowerChar(r) == ToLowerChar(c)
  {
    if IsLower(c) then (c as int - 32) as char else c
  }

  /** Python's `str.lower()`, restricted to ASCII letters. */
  function Lower(s: string): (r: string)
    ensures |r| == |s|
    ensures forall i :: 0 <= i < |s| ==> r[i] == ToLowerChar(s[i])
  {
    if s == [] then [] else [ToLowerChar(s[0])] + Lower(s[1..])
  }

  /** The title-casing pass over `s`, where `afterLetter` says whether the
      character just before `s` was a letter. */
  function TitleFrom(s: string, afterLetter: bool): (r: string)
    ensures |r| == |s|
  {
    if s == [] then []
    else
      var c := s[0];
      var t := if !IsLetter(c) then c else if afterLetter then ToLowerChar(c) else ToUpperChar(c);
      [t] + TitleFrom(s[1..], IsLetter(c))
  }

  /** Whether position `i` of `s` starts a word for `str.title()`: a letter
      that is first or follows a character that is not a letter. */
  predicate StartsWord(s: string, i: nat)
    requires i < |s|
  {
    IsLetter(s[i]) && (i == 0 || !IsLetter(s[i - 1]))
  }

  /** Python's `str.title()`: a letter that starts a word is upper-cased,
      every other letter is lower-cased, and other characters stay. */
  function Title(s: string): (r: string)
    ensures |r| == |s|
    ensures forall i :: 0 <= i < |s| ==>
      r[i] == (if StartsWord(s, i) then ToUpperChar(s[i])
               else if IsLetter(s[i]) then ToLowerChar(s[i])
               else s[i])
  {
    TitlePointwise(s);
    TitleFrom(s, false)
  }

  lemma {:induction false} TitleFromAt(s: string, afterLetter: bool, i: nat)
    requires i < |s|
    ensures TitleFrom(s, afterLetter)[i] ==
      (if !IsLetter(s[i]) then s[i]
       else if (if i == 0 then afterLetter else IsLetter(s[i - 1])) then ToLowerChar(s[i])
       else ToUpperChar(s[i]))
  {
    if i > 0 {
      TitleFromAt(s[1..], IsLetter(s[0]), i - 1);
      if i > 1 { assert s[1..][i - 2] == s[i - 1]; }
    }
  }

  lemma {:induction false} TitlePointwise(s: string)
    ensures forall i :: 0 <= i < |s| ==>
      TitleFrom(s, false)[i] == (if StartsWord(s, i) then ToUpperChar(s[i])
                                 else if IsLetter(s[i]) then ToLowerChar(s[i])
                                 else s[i])
  {
    forall i | 0 <= i < |s|
      ensures TitleFrom(s, false)[i] == (if StartsWord(s, i) then ToUpperChar(s[i])
                                         else if IsLetter(s[i]) then ToLowerChar(s[i])
                                         else s[i])
    {
      TitleFromAt(s, false, i);
    }
  }

  /** Title-casing changes letter case only: lower-casing undoes it. */
  lemma TitleKeepsLetters(s: string)
    ensures Lower(Title(s)) == Lower(s)
  {
  }

  /** No character of `s` is an upper-case letter. */
  predicate NoUpper(s: string) {
    forall i :: 0 <= i < |s| ==> !IsUpper(s[i])
  }

  /** Lower-casing leaves a string without upper-case letters unchanged. */
  lemma LowerOfNoUpper(s: string)
    requires NoUpper(s)
    ensures Lower(s) == s
  {
    assert forall i :: 0 <= i < |s| ==> Lower(s)[i] == s[i];
  }

  /** On strings without upper-case letters, title-casing is one-to-one. */
  lemma TitleInjective(a: string, b: string)
    requires NoUpper(a) && NoUpper(b) && Title(a) == Title(b)
    ensures a == b
  {
    TitleKeepsLetters(a);
    TitleKeepsLetters(b);
    LowerOfNoUpper(a);
    LowerOfNoUpper(b);
  }

  /** `kw` occurs in `t` starting at position `i`. */
  predicate OccursAt(kw: string, t: string, i: nat) {
    i + |kw| <= |t| && t[i..i + |kw|] == kw
  }

  /** Python's substring test `kw in t`. */
  function Occurs(kw: string, t: string): (b: bool)
    ensures b <==> exists i :: 0 <= i <= |t| && OccursAt(kw, t, i)
    decreases |t|
  {
    if |t| < |kw| then
      false
    else if t[..|kw|] == kw then
      assert OccursAt(kw, t, 0);
      true
    else
      var b := Occurs(kw, t[1..]);
      assert b ==> exists i :: 0 <= i <= |t| && OccursAt(kw, t, i) by {
        if b {
          var i :| 0 <= i <= |t| - 1 && OccursAt(kw, t[1..], i);
          assert t[1..][i..i + |kw|] == t[i + 1..i + 1 + |kw|];
          assert OccursAt(kw, t, i + 1);
        }
      }
      assert (exists i :: 0 <= i <= |t| && OccursAt(kw, t, i)) ==> b by {
        if exists i :: 0 <= i <= |t| && OccursAt(kw, t, i) {
          var i :| 0 <= i <= |t| && OccursAt(kw, t, i);
          assert i != 0;
          assert t[1..][i - 1..i - 1 + |kw|] == t[i..i + |kw|];
          assert OccursAt(kw, t[1..], i - 1);
        }
      }
      b
  }

  /** The characters JavaScript's `String.prototype.trim()` removes
      (WhiteSpace and LineTerminator of ECMAScript). */
  const JsWhitespace: set<char> := {
    '\t', '\n', '\U{B}', '\U{C}', '\r', ' ', '\U{A0}', '\U{1680}',
    '\U{2000}', '\U{2001}', '\U{2002}', '\U{2003}', '\U{2004}', '\U{2005}',
    '\U{2006}', '\U{2007}', '\U{2008}', '\U{2009}', '\U{200A}',
    '\U{2028}', '\U{2029}', '\U{202F}', '\U{205F}', '\U{3000}', '\U{FEFF}'
  }

  /** The characters Python's `str.strip()` removes (those with `isspace()`). */
  const PyWhitespace: set<char> := {
    '\t', '\n', '\U{B}', '\U{C}', '\r', '\U{1C}', '\U{1D}', '\U{1E}', '\U{1F}',
    ' ', '\U{85}', '\U{A0}', '\U{1680}',
    '\U{2000}', '\U{2001}', '\U{2002}', '\U{2003}', '\U{2004}', '\U{2005}',
    '\U{2006}', '\U{2007}', '\U{2008}', '\U{2009}', '\U{200A}',
    '\U{2028}', '\U{2029}', '\U{202F}', '\U{205F}', '\U{3000}'
  }

  /** Every character of `s` is in `ws`. */
  predicate AllIn(s: string, ws: set<char>) {
    forall k :: 0 <= k < |s| ==> s[k] in ws
  }

  /** The number of leading characters of `s` that are in `ws`. */
  function LeadingCount(s: string, ws: set<char>): (n: nat)
    ensures n <= |s| && AllIn(s[..n], ws)
    ensures n < |s| ==> s[n] !in ws
  {
    if s == [] || s[0] !in ws then 0
    else
      var n := LeadingCount(s[1..], ws);
      assert s[..n + 1] == [s[0]] + s[1..][..n];
      n + 1
  }

  /** The number of trailing characters of `s` that are in `ws`. */
  function TrailingCount(s: string, ws: set<char>): (n: nat)
    ensures n <= |s| && AllIn(s[|s| - n..], ws)
    ensures n < |s| ==> s[|s| - n - 1] !in ws
  {
    if s == [] || s[|s| - 1] !in ws then 0
    else
      var n := TrailingCount(s[..|s| - 1], ws);
      var w, v := s[|s| - (n + 1)..], s[..|s| - 1][|s| - 1 - n..];
      assert AllIn(w, ws) by {
        forall k | 0 <= k < n ensures w[k] in ws {
          assert w[k] == v[k];
        }
      }
      n + 1
  }

  /** `s` without its leading and trailing characters from `ws`: Python's
      `str.strip()` with `PyWhitespace`, JavaScript's `trim()` with
      `JsWhitespace`. */
  function Strip(s: string, ws: set<char>): (r: string)
    ensures r == [] <==> AllIn(s, ws)
    ensures r != [] ==> r[0] !in ws && r[|r| - 1] !in ws
    ensures exists i :: 0 <= i <= |s| - |r| && r == s[i..i + |r|] && AllIn(s[..i], ws) && AllIn(s[i + |r|..], ws)
  {
    var a := LeadingCount(s, ws);
    if a == |s| then
      assert s[..a] == s;
      assert s[0..0] == [];
      []
    else
      var b := TrailingCount(s, ws);
      assert b < |s| - a;
      var r := s[a..|s| - b];
      assert !AllIn(s, ws) by { assert s[a] !in ws; }
      assert r == s[a..a + |r|] && s[a + |r|..] == s[|s| - b..];
      r
  }

  /** Stripping twice is the same as stripping once. */
  lemma {:induction false} StripIdempotent(s: string, ws: set<char>)
    ensures Strip(Strip(s, ws), ws) == Strip(s, ws)
  {
    var r := Strip(s, ws);
    if r != [] {
      assert LeadingCount(r, ws) == 0;
      assert TrailingCount(r, ws) == 0;
      assert r[0..|r|] == r;
    }
  }

  /** JavaScript's `parts.join(sep)`. */
  function Join(parts: seq<string>, sep: string): (r: string)
    ensures parts == [] ==> r == []
    ensures |parts| == 1 ==> r == parts[0]
    ensures |parts| >= 2 ==> r == parts[0] + sep + Join(parts[1..], sep)
    ensures |parts| >= 2 ==> r == Join(parts[..|parts| - 1], sep) + sep + parts[|parts| - 1]
  {
    if parts == [] then []
    else if |parts| == 1 then parts[0]
    else
      assert |parts| > 2 ==> parts[1..][..|parts[1..]| - 1] == parts[..|parts| - 1][1..];
      parts[0] + sep + Join(parts[1..], sep)
  }
}
