/**
 * The Python string operations the pipeline applies to column names and cells:
 * `str.lower`, `str.upper` on single characters, `str.capitalize`, `str.title`,
 * `str.strip` and the substring test `k in s`. Case mapping is modelled on ASCII
 * letters; `strip` removes every character Python's `str.isspace` accepts.
 */
module Text {

  predicate IsUpper(c: char) { 'A' <= c <= 'Z' }
  predicate IsLower(c: char) { 'a' <= c <= 'z' }

  /** Python's "cased" characters (those with an upper and a lower form). */
  predicate IsCased(c: char) { IsUpper(c) || IsLower(c) }

  function ToLower(c: char): (r: char)
    ensures IsCased(c) <==> IsLower(r)
    ensures !IsCased(c) ==> r == c
  {
    if IsUpper(c) then (c as int + 32) as char else c
  }

  function ToUpper(c: char): (r: char)
    ensures IsCased(c) <==> IsUpper(r)
    ensures !IsCased(c) ==> r == c
  {
    if IsLower(c) then (c as int - 32) as char else c
  }

  /** Upper- and lower-casing a letter agree on which letter it is. */
  lemma CaseMapsAgree(c: char, d: char)
    ensures ToUpper(c) == ToUpper(d) <==> ToLower(c) == ToLower(d)
  {
  }

  /** `s.lower()` */
  function Lower(s: string): (r: string)
    ensures |r| == |s|
    ensures forall i :: 0 <= i < |r| ==> !IsUpper(r[i])
  {
    seq(|s|, i requires 0 <= i < |s| => ToLower(s[i]))
  }

  /** `s.capitalize()`: the first character upper-cased, the rest lower-cased. */
  function Capitalize(s: string): (r: string)
    ensures |r| == |s|
    ensures s != [] ==> !IsLower(r[0])
    ensures forall i :: 1 <= i < |r| ==> !IsUpper(r[i])
  {
    if s == [] then [] else [ToUpper(s[0])] + Lower(s[1..])
  }

  /**
   * `s.title()`: a character that follows a cased character is lower-cased,
   * every other character is upper-cased.
   */
  function Title(s: string): (r: string)
    ensures |r| == |s|
  {
    seq(|s|, i requires 0 <= i < |s| => if i > 0 && IsCased(s[i - 1]) then ToLower(s[i]) else ToUpper(s[i]))
  }

  /** A word of lower-case ASCII letters only, such as a symptom keyword. */
  predicate IsLowerWord(w: string) {
    forall i :: 0 <= i < |w| ==> IsLower(w[i])
  }

  /**
   * Title-casing `u` gives the capitalised form of a lower-case word exactly when
   * `u` is that word up to case.
   */
  lemma TitleMatchesCapitalized(u: string, w: string)
    requires |w| > 0 && IsLowerWord(w)
    ensures Title(u) == Capitalize(w) <==> Lower(u) == w
  {
    if Title(u) == Capitalize(w) {
      AllCasedFromTitle(u, w, |u|);
      forall j | 0 <= j < |u| ensures Lower(u)[j] == w[j] {
        if j == 0 {
          CaseMapsAgree(u[0], w[0]);
        } else {
          assert Title(u)[j] == ToLower(u[j]);
          assert Capitalize(w)[j] == ToLower(w[j]);
        }
      }
    }
    if Lower(u) == w {
      forall j | 0 <= j < |u| ensures Title(u)[j] == Capitalize(w)[j] {
        assert ToLower(u[j]) == w[j];
        if j == 0 {
          CaseMapsAgree(u[0], w[0]);
        } else {
          assert ToLower(u[j - 1]) == w[j - 1];
        }
      }
    }
  }

  /** Helper: if `Title(u)` spells a capitalised lower-case word, every character of `u` is a letter. */
  lemma {:induction false} AllCasedFromTitle(u: string, w: string, n: nat)
    requires |w| > 0 && IsLowerWord(w) && Title(u) == Capitalize(w) && n <= |u|
    ensures forall j :: 0 <= j < n ==> IsCased(u[j])
  {
    if n > 0 {
      AllCasedFromTitle(u, w, n - 1);
      var j := n - 1;
      if j == 0 {
        assert Title(u)[0] == ToUpper(u[0]) == ToUpper(w[0]);
      } else {
        assert Title(u)[j] == ToLower(u[j]) == ToLower(w[j]);
      }
    }
  }

  /** Python's `str.isspace` on one character. */
  predicate IsSpace(c: char) {
    c == ' ' || c == '\t' || c == '\n' || c == '\r' || c == '\U{000B}' || c == '\U{000C}' ||
    ('\U{001C}' <= c <= '\U{001F}') || c == '\U{0085}' || c == '\U{00A0}' || c == '\U{1680}' ||
    ('\U{2000}' <= c <= '\U{200A}') || c == '\U{2028}' || c == '\U{2029}' || c == '\U{202F}' ||
    c == '\U{205F}' || c == '\U{3000}'
  }

  /** The number of white-space characters `s` starts with. */
  function LeadingSpaces(s: string): (n: nat)
    ensures n <= |s|
    ensures forall i :: 0 <= i < n ==> IsSpace(s[i])
    ensures n < |s| ==> !IsSpace(s[n])
  {
    if |s| > 0 && IsSpace(s[0]) then 1 + LeadingSpaces(s[1..]) else 0
  }

  /** The number of white-space characters `s` ends with. */
  function TrailingSpaces(s: string): (n: nat)
    ensures n <= |s|
    ensures forall i :: |s| - n <= i < |s| ==> IsSpace(s[i])
    ensures n < |s| ==> !IsSpace(s[|s| - 1 - n])
  {
    if |s| > 0 && IsSpace(s[|s| - 1]) then 1 + TrailingSpaces(s[..|s| - 1]) else 0
  }

  /** `s[a..b]` is `s` with all leading and trailing white space removed. */
  ghost predicate StrippedAt(s: string, a: int, b: int) {
    0 <= a <= b <= |s| &&
    (forall i :: 0 <= i < a ==> IsSpace(s[i])) &&
    (forall i :: b <= i < |s| ==> IsSpace(s[i])) &&
    (a < b ==> !IsSpace(s[a]) && !IsSpace(s[b - 1]))
  }

  function StripBounds(s: string): (ab: (nat, nat))
    ensures StrippedAt(s, ab.0, ab.1)
  {
    var a := LeadingSpaces(s);
    if a == |s| then (a, a)
    else
      var n := TrailingSpaces(s);
      assert !IsSpace(s[a]);
      (a, |s| - n)
  }

  /** `s.strip()` */
  function Strip(s: string): (r: string)
    ensures |r| <= |s|
    ensures r != [] ==> !IsSpace(r[0]) && !IsSpace(r[|r| - 1])
  {
    var ab := StripBounds(s);
    s[ab.0..ab.1]
  }

  /** `s` and `t` have white space at the same positions. */
  ghost predicate SameSpaces(s: string, t: string) {
    |s| == |t| && forall i :: 0 <= i < |s| ==> IsSpace(s[i]) == IsSpace(t[i])
  }

  lemma {:induction false} SameLeadingSpaces(s: string, t: string)
    requires SameSpaces(s, t)
    ensures LeadingSpaces(s) == LeadingSpaces(t)
  {
    if |s| > 0 {
      assert IsSpace(s[0]) == IsSpace(t[0]);
      assert SameSpaces(s[1..], t[1..]) by {
        forall i | 0 <= i < |s| - 1 ensures IsSpace(s[1..][i]) == IsSpace(t[1..][i]) {
          assert s[1..][i] == s[i + 1] && t[1..][i] == t[i + 1];
        }
      }
      SameLeadingSpaces(s[1..], t[1..]);
    }
  }

  lemma {:induction false} SameTrailingSpaces(s: string, t: string)
    requires SameSpaces(s, t)
    ensures TrailingSpaces(s) == TrailingSpaces(t)
  {
    if |s| > 0 {
      var n := |s| - 1;
      assert IsSpace(s[n]) == IsSpace(t[n]);
      assert SameSpaces(s[..n], t[..n]) by {
        forall i | 0 <= i < n ensures IsSpace(s[..n][i]) == IsSpace(t[..n][i]) {
          assert s[..n][i] == s[i] && t[..n][i] == t[i];
        }
      }
      SameTrailingSpaces(s[..n], t[..n]);
    }
  }

  /** Case mapping never turns a character into white space or back. */
  lemma CaseMapsKeepSpace(c: char)
    ensures IsSpace(ToLower(c)) == IsSpace(c) && IsSpace(ToUpper(c)) == IsSpace(c)
  {
  }

  lemma TitleKeepsSpaces(s: string)
    ensures SameSpaces(s, Title(s))
  {
    forall i | 0 <= i < |s| ensures IsSpace(s[i]) == IsSpace(Title(s)[i]) {
      CaseMapsKeepSpace(s[i]);
    }
  }

  /** Title-casing a slice that starts a word is the same as slicing the title-cased string. */
  lemma TitleOfSlice(s: string, a: nat, b: nat)
    requires a <= b <= |s| && (a == 0 || !IsCased(s[a - 1]))
    ensures Title(s)[a..b] == Title(s[a..b])
  {
    var u := s[a..b];
    forall j | 0 <= j < b - a ensures Title(s)[a + j] == Title(u)[j] {
      assert u[j] == s[a + j];
      if j > 0 {
        assert u[j - 1] == s[a + j - 1];
      }
    }
  }

  /** Strings with white space at the same positions have the same strip bounds. */
  lemma SameStripBounds(s: string, t: string)
    requires SameSpaces(s, t)
    ensures StripBounds(s) == StripBounds(t)
  {
    SameLeadingSpaces(s, t);
    SameTrailingSpaces(s, t);
  }

  /** Title-casing moves no white space, so it leaves the strip bounds where they were. */
  lemma TitleStripBounds(s: string)
    ensures StripBounds(Title(s)) == StripBounds(s)
  {
    TitleKeepsSpaces(s);
    SameStripBounds(s, Title(s));
  }

  /** Stripping after title-casing is title-casing after stripping (white space is never cased). */
  lemma StripTitle(s: string)
    ensures Strip(Title(s)) == Title(Strip(s))
  {
    TitleStripBounds(s);
    var (a, b) := StripBounds(s);
    assert a > 0 ==> IsSpace(s[a - 1]);
    TitleOfSlice(s, a, b);
  }

  /** A string without white space is its own strip. */
  lemma StripWithoutSpaces(s: string)
    requires forall i :: 0 <= i < |s| ==> !IsSpace(s[i])
    ensures Strip(s) == s
  {
  }

  /** Letters are never white space. */
  lemma CasedIsNoSpace(c: char)
    requires IsCased(c)
    ensures !IsSpace(c)
  {
  }

  /** `k` occurs in `s` at position `i`. */
  ghost predicate OccursAt(k: string, s: string, i: int) {
    0 <= i && i + |k| <= |s| && s[i..i + |k|] == k
  }

  ghost predicate Occurs(k: string, s: string) {
    exists i :: OccursAt(k, s, i)
  }

  /** Python's `k in s` for strings. */
  function Contains(s: string, k: string): (r: bool)
    ensures r <==> Occurs(k, s)
    decreases |s|
  {
    if |k| > |s| then false
    else if s[..|k|] == k then
      assert OccursAt(k, s, 0);
      true
    else
      OccursShift(k, s);
      Contains(s[1..], k)
  }

  /** Helper: an occurrence not at the front of `s` is an occurrence in `s[1..]`. */
  lemma OccursShift(k: string, s: string)
    requires |k| <= |s| && s[..|k|] != k
    ensures Occurs(k, s) <==> Occurs(k, s[1..])
  {
    if Occurs(k, s) {
      var i :| OccursAt(k, s, i);
      assert i != 0;
      assert s[1..][i - 1..i - 1 + |k|] == s[i..i + |k|];
      assert OccursAt(k, s[1..], i - 1);
    }
    if Occurs(k, s[1..]) {
      var j :| OccursAt(k, s[1..], j);
      assert s[1..][j..j + |k|] == s[j + 1..j + 1 + |k|];
      assert OccursAt(k, s, j + 1);
    }
  }
}
