/** The few pieces of Go's `strings` package that the core relies on:
    TrimSpace, ToUpper/ToLower, HasPrefix/TrimPrefix, Index and Split. */
module Text {

  /** Go's `unicode.IsSpace`: the Latin-1 spaces plus the Unicode White_Space
      characters above U+00FF. */
  predicate IsSpace(c: char) {
    || c == ' ' || c == '\t' || c == '\n' || c == '\r'
    || c == '\U{000B}' || c == '\U{000C}' || c == '\U{0085}' || c == '\U{00A0}'
    || c == '\U{1680}' || ('\U{2000}' <= c <= '\U{200A}')
    || c == '\U{2028}' || c == '\U{2029}' || c == '\U{202F}' || c == '\U{205F}'
    || c == '\U{3000}'
  }

  predicate AllSpace(s: string) {
    forall i :: 0 <= i < |s| ==> IsSpace(s[i])
  }

  /** The string has no leading and no trailing white space. */
  predicate Trimmed(s: string) {
    s == [] || (!IsSpace(s[0]) && !IsSpace(s[|s| - 1]))
  }

  /** Drops leading white space: what is dropped is all white space and what
      is kept is a suffix that does not start with white space. */
  function TrimLeft(s: string): (r: string)
    ensures |r| <= |s| && r == s[|s| - |r|..]
    ensures r == [] || !IsSpace(r[0])
    ensures forall i :: 0 <= i < |s| - |r| ==> IsSpace(s[i])
  {
    if |s| > 0 && IsSpace(s[0]) then TrimLeft(s[1..]) else s
  }

  /** Drops trailing white space, symmetrically to TrimLeft. */
  function TrimRight(s: string): (r: string)
    ensures |r| <= |s| && r == s[..|r|]
    ensures r == [] || !IsSpace(r[|r| - 1])
    ensures forall i :: |r| <= i < |s| ==> IsSpace(s[i])
  {
    if |s| > 0 && IsSpace(s[|s| - 1]) then TrimRight(s[..|s| - 1]) else s
  }

  /** Go's `strings.TrimSpace`. */
  function TrimSpace(s: string): (r: string)
    ensures Trimmed(r)
    ensures r == [] <==> AllSpace(s)
  {
    var l := TrimLeft(s);
    var r := TrimRight(l);
    assert r != [] ==> r[0] == l[0];
    assert AllSpace(s) ==> l == [];
    assert r == [] ==> l == [];
    r
  }

  lemma TrimSpaceOfTrimmed(s: string)
    requires Trimmed(s)
    ensures TrimSpace(s) == s
  {
  }

  lemma TrimSpaceIdempotent(s: string)
    ensures TrimSpace(TrimSpace(s)) == TrimSpace(s)
  {
    TrimSpaceOfTrimmed(TrimSpace(s));
  }

  /** Applies a character map position by position. */
  function MapChars(s: string, f: char -> char): (r: string)
    ensures |r| == |s|
    ensures forall i :: 0 <= i < |s| ==> r[i] == f(s[i])
  {
    seq(|s|, i requires 0 <= i < |s| => f(s[i]))
  }

  /** A character map that leaves white space white and non-space non-space. */
  ghost predicate KeepsSpace(f: char -> char) {
    forall c :: IsSpace(f(c)) == IsSpace(c)
  }

  lemma {:induction false} TrimLeftMapChars(s: string, f: char -> char)
    requires KeepsSpace(f)
    ensures TrimLeft(MapChars(s, f)) == MapChars(TrimLeft(s), f)
    decreases |s|
  {
    var m := MapChars(s, f);
    if |s| > 0 {
      assert IsSpace(m[0]) == IsSpace(s[0]);
      if IsSpace(s[0]) {
        assert m[1..] == MapChars(s[1..], f);
        TrimLeftMapChars(s[1..], f);
      }
    }
  }

  lemma {:induction false} TrimRightMapChars(s: string, f: char -> char)
    requires KeepsSpace(f)
    ensures TrimRight(MapChars(s, f)) == MapChars(TrimRight(s), f)
    decreases |s|
  {
    var m := MapChars(s, f);
    if |s| > 0 {
      assert IsSpace(m[|m| - 1]) == IsSpace(s[|s| - 1]);
      if IsSpace(s[|s| - 1]) {
        assert m[..|m| - 1] == MapChars(s[..|s| - 1], f);
        TrimRightMapChars(s[..|s| - 1], f);
      }
    }
  }

  lemma TrimSpaceMapChars(s: string, f: char -> char)
    requires KeepsSpace(f)
    ensures TrimSpace(MapChars(s, f)) == MapChars(TrimSpace(s), f)
  {
    TrimLeftMapChars(s, f);
    TrimRightMapChars(TrimLeft(s), f);
  }

  function UpperChar(c: char): char {
    if 'a' <= c <= 'z' then (c as int - 32) as char else c
  }

  function LowerChar(c: char): char {
    if 'A' <= c <= 'Z' then (c as int + 32) as char else c
  }

  /** Go's `strings.ToUpper`, restricted to ASCII letters. */
  function ToUpper(s: string): string {
    MapChars(s, UpperChar)
  }

  /** Go's `strings.ToLower`, restricted to ASCII letters. */
  function ToLower(s: string): string {
    MapChars(s, LowerChar)
  }

  lemma UpperLowerKeepSpace()
    ensures KeepsSpace(UpperChar) && KeepsSpace(LowerChar)
  {
  }

  /** Trimming and changing case commute. */
  lemma TrimSpaceCase(s: string)
    ensures TrimSpace(ToUpper(s)) == ToUpper(TrimSpace(s))
    ensures TrimSpace(ToLower(s)) == ToLower(TrimSpace(s))
  {
    UpperLowerKeepSpace();
    TrimSpaceMapChars(s, UpperChar);
    TrimSpaceMapChars(s, LowerChar);
  }

  lemma ToUpperIdempotent(s: string)
    ensures ToUpper(ToUpper(s)) == ToUpper(s)
  {
  }

  /** Lower-casing forgets any earlier change of case. */
  lemma ToLowerForgetsCase(s: string)
    ensures ToLower(ToUpper(s)) == ToLower(s)
    ensures ToLower(ToLower(s)) == ToLower(s)
  {
  }

  /** Upper-casing forgets any earlier lower-casing. */
  lemma ToUpperForgetsCase(s: string)
    ensures ToUpper(ToLower(s)) == ToUpper(s)
  {
    assert forall i :: 0 <= i < |s| ==> ToUpper(ToLower(s))[i] == UpperChar(s[i]);
  }

  /** A string without lower-case ASCII letters is its own upper case. */
  lemma UpperUnchanged(s: string)
    requires forall i :: 0 <= i < |s| ==> !('a' <= s[i] <= 'z')
    ensures ToUpper(s) == s
  {
  }

  /** Go's `strings.HasPrefix`. */
  predicate HasPrefix(s: string, p: string) {
    |p| <= |s| && s[..|p|] == p
  }

  /** Go's `strings.TrimPrefix`. */
  function TrimPrefix(s: string, p: string): (r: string)
    ensures HasPrefix(s, p) ==> s == p + r
    ensures !HasPrefix(s, p) ==> r == s
  {
    if HasPrefix(s, p) then s[|p|..] else s
  }

  /** Go's `strings.Index` for a one-character needle: the first position of
      `c`, or -1. */
  function IndexOf(s: string, c: char): (i: int)
    ensures -1 <= i < |s|
    ensures i == -1 <==> c !in s
    ensures i >= 0 ==> s[i] == c && c !in s[..i]
  {
    if |s| == 0 then -1
    else if s[0] == c then 0
    else
      var j := IndexOf(s[1..], c);
      assert s[1..][..if j >= 0 then j else 0] == s[1..if j >= 0 then j + 1 else 1];
      if j == -1 then -1 else j + 1
  }

  /** Go's `strings.Split` for a one-character separator: the pieces between
      separators, always at least one, none containing the separator. */
  function Split(s: string, sep: char): (parts: seq<string>)
    ensures |parts| >= 1
    ensures forall k :: 0 <= k < |parts| ==> sep !in parts[k]
    decreases |s|
  {
    if |s| == 0 then [""]
    else
      var rest := Split(s[1..], sep);
      if s[0] == sep then [""] + rest
      else [[s[0]] + rest[0]] + rest[1..]
  }

  /** Go's `strings.Join` for a one-character separator. */
  function Join(parts: seq<string>, sep: char): string {
    if |parts| == 0 then ""
    else if |parts| == 1 then parts[0]
    else parts[0] + [sep] + Join(parts[1..], sep)
  }

  /** Splitting loses nothing: joining the pieces gives the input back. */
  lemma {:induction false} JoinSplit(s: string, sep: char)
    ensures Join(Split(s, sep), sep) == s
    decreases |s|
  {
    if |s| > 0 {
      JoinSplit(s[1..], sep);
      var rest := Split(s[1..], sep);
      if s[0] != sep {
        if |rest| == 1 {
          assert s == [s[0]] + s[1..];
        } else {
          assert rest == [rest[0]] + rest[1..];
          assert Join(rest, sep) == rest[0] + [sep] + Join(rest[1..], sep);
          assert s == [s[0]] + s[1..];
        }
      } else {
        assert s == [sep] + s[1..];
      }
    }
  }

  /** A string without the separator is a single piece. */
  lemma {:induction false} SplitNoSep(s: string, sep: char)
    requires sep !in s
    ensures Split(s, sep) == [s]
    decreases |s|
  {
    if |s| > 0 {
      assert sep !in s[1..];
      SplitNoSep(s[1..], sep);
      assert s == [s[0]] + s[1..];
    }
  }

  /** The text before the first separator is the first piece. */
  lemma {:induction false} SplitAt(a: string, sep: char, b: string)
    requires sep !in a
    ensures Split(a + [sep] + b, sep) == [a] + Split(b, sep)
    decreases |a|
  {
    var s := a + [sep] + b;
    if |a| == 0 {
      assert s[1..] == b;
    } else {
      assert s[1..] == a[1..] + [sep] + b;
      assert sep !in a[1..];
      SplitAt(a[1..], sep, b);
      assert [a[0]] + a[1..] == a;
    }
  }
}
