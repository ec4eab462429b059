/** The Python string operations the search relies on, restricted to ASCII:
    `str.lower`, `str.strip`, `str.startswith`, `in` on strings and `str.join`. */
module Text {

  predicate IsAsciiUpper(c: char) { 'A' <= c <= 'Z' }

  function LowerChar(c: char): (r: char)
    ensures IsAsciiUpper(c) ==> r as int == c as int + 32
    ensures !IsAsciiUpper(c) ==> r == c
    ensures !IsAsciiUpper(r)
  {
    if IsAsciiUpper(c) then (c as int + 32) as char else c
  }

  /** `s.lower()` on ASCII: each upper-case letter is mapped to its lower-case form. */
  function Lower(s: string): (r: string)
    ensures |r| == |s|
    ensures forall i :: 0 <= i < |s| ==> r[i] == LowerChar(s[i])
  {
    if s == [] then [] else [LowerChar(s[0])] + Lower(s[1..])
  }

  lemma {:induction false} LowerIdempotent(s: string)
    ensures Lower(Lower(s)) == Lower(s)
  {
    var t := Lower(s);
    assert forall i :: 0 <= i < |t| ==> LowerChar(t[i]) == t[i];
  }

  /** The ASCII characters for which Python's `str.isspace` holds:
      space, tab, line feed, vertical tab, form feed, carriage return,
      and the four separators 0x1C to 0x1F. */
  predicate IsSpace(c: char) {
    c == ' ' || 9 <= c as int <= 13 || 28 <= c as int <= 31
  }

  /** Drops leading whitespace. */
  function StripLeft(s: string): (r: string)
    ensures |r| <= |s| && r == s[|s| - |r|..]
    ensures forall i :: 0 <= i < |s| - |r| ==> IsSpace(s[i])
    ensures r == [] || !IsSpace(r[0])
  {
    if s != [] && IsSpace(s[0]) then StripLeft(s[1..]) else s
  }

  /** Drops trailing whitespace. */
  function StripRight(s: string): (r: string)
    ensures |r| <= |s| && r == s[..|r|]
    ensures forall i :: |r| <= i < |s| ==> IsSpace(s[i])
    ensures r == [] || !IsSpace(r[|r| - 1])
  {
    if s != [] && IsSpace(s[|s| - 1]) then StripRight(s[..|s| - 1]) else s
  }

  /** `s.strip()`: whitespace removed at both ends. */
  function Strip(s: string): (r: string)
    ensures r == [] || (!IsSpace(r[0]) && !IsSpace(r[|r| - 1]))
    ensures r == [] <==> forall i :: 0 <= i < |s| ==> IsSpace(s[i])
  {
    StripEmptyIffBlank(s);
    StripRight(StripLeft(s))
  }

  lemma StripEmptyIffBlank(s: string)
    ensures StripRight(StripLeft(s)) == [] <==> forall i :: 0 <= i < |s| ==> IsSpace(s[i])
  {
    var l := StripLeft(s);
    if StripRight(l) == [] {
      assert l == [];
    } else {
      assert !IsSpace(s[|s| - |l|]);
    }
  }

  /** What strip keeps is a slice of `s` with only whitespace outside it. */
  lemma StripIsSlice(s: string)
    ensures exists lo, hi :: 0 <= lo <= hi <= |s| && Strip(s) == s[lo..hi]
                             && (forall i :: 0 <= i < lo ==> IsSpace(s[i]))
                             && (forall i :: hi <= i < |s| ==> IsSpace(s[i]))
  {
    var l := StripLeft(s);
    var r := StripRight(l);
    var lo := |s| - |l|;
    assert r == s[lo..lo + |r|];
    forall i | lo + |r| <= i < |s| ensures IsSpace(s[i]) {
      assert s[i] == l[i - lo];
    }
  }

  /** `s.startswith(p)`. */
  predicate IsPrefix(p: string, s: string) {
    |p| <= |s| && s[..|p|] == p
  }

  /** `p` occurs in `s` starting at index `i`. */
  predicate OccursAt(p: string, s: string, i: int) {
    0 <= i && i + |p| <= |s| && s[i..i + |p|] == p
  }

  /** `p in s`: `p` occurs in `s` as a contiguous slice. */
  predicate IsSubstring(p: string, s: string)
    decreases |s|
  {
    IsPrefix(p, s) || (s != [] && IsSubstring(p, s[1..]))
  }

  /** The recursive definition agrees with "some slice of `s` equals `p`". */
  lemma {:induction false} SubstringIff(p: string, s: string)
    ensures IsSubstring(p, s) <==> exists i :: OccursAt(p, s, i)
    decreases |s|
  {
    if IsPrefix(p, s) {
      assert OccursAt(p, s, 0);
    } else if s != [] {
      var t := s[1..];
      SubstringIff(p, t);
      if IsSubstring(p, t) {
        var i :| OccursAt(p, t, i);
        assert s[i + 1..i + 1 + |p|] == t[i..i + |p|];
        assert OccursAt(p, s, i + 1);
      } else {
        forall i | 0 < i && i + |p| <= |s| ensures !OccursAt(p, s, i) {
          assert s[i..i + |p|] == t[i - 1..i - 1 + |p|];
          assert !OccursAt(p, t, i - 1);
        }
        assert !OccursAt(p, s, 0);
      }
    }
  }

  /** `sep.join(parts)`. */
  function Join(sep: string, parts: seq<string>): string
    decreases |parts|
  {
    if |parts| == 0 then ""
    else if |parts| == 1 then parts[0]
    else parts[0] + sep + Join(sep, parts[1..])
  }

  /** Lower-casing leaves a string without upper-case letters unchanged. */
  lemma LowerNoUpper(s: string)
    requires forall i :: 0 <= i < |s| ==> !IsAsciiUpper(s[i])
    ensures Lower(s) == s
  {
  }

  /** Stripping leaves a string that neither starts nor ends with whitespace unchanged. */
  lemma StripNoEdgeSpace(s: string)
    requires s != [] && !IsSpace(s[0]) && !IsSpace(s[|s| - 1])
    ensures Strip(s) == s
  {
    assert StripLeft(s) == s;
  }

  lemma LowerConcat(a: string, b: string)
    ensures Lower(a + b) == Lower(a) + Lower(b)
  {
    assert forall i :: 0 <= i < |a + b| ==> Lower(a + b)[i] == (Lower(a) + Lower(b))[i];
  }

  /** Whitespace added in front does not survive stripping. */
  lemma StripPrependSpace(c: char, t: string)
    requires IsSpace(c)
    ensures Strip([c] + t) == Strip(t)
  {
    assert ([c] + t)[1..] == t;
  }

  lemma {:induction false} StripLeftAppendSpace(t: string, c: char)
    requires IsSpace(c)
    ensures StripLeft(t + [c]) == if StripLeft(t) == [] then [] else StripLeft(t) + [c]
    decreases |t|
  {
    if t == [] {
      assert StripLeft([c]) == StripLeft([c][1..]);
    } else if IsSpace(t[0]) {
      assert (t + [c])[1..] == t[1..] + [c];
      StripLeftAppendSpace(t[1..], c);
    }
  }

  /** Whitespace added at the end does not survive stripping. */
  lemma StripAppendSpace(t: string, c: char)
    requires IsSpace(c)
    ensures Strip(t + [c]) == Strip(t)
  {
    StripLeftAppendSpace(t, c);
    var l := StripLeft(t);
    if l != [] {
      assert (l + [c])[..|l + [c]| - 1] == l;
    }
  }

  /** `c` occurs nowhere in `s`. */
  predicate Avoids(s: string, c: char) {
    forall i :: 0 <= i < |s| ==> s[i] != c
  }

  /** A non-empty `p` whose first character never occurs in `s` is not in `s`. */
  lemma {:induction false} NotSubstringOfAvoiding(p: string, s: string)
    requires p != [] && Avoids(s, p[0])
    ensures !IsSubstring(p, s)
    decreases |s|
  {
    if |p| <= |s| {
      assert s[..|p|][0] == s[0];
    }
    if s != [] {
      assert forall i :: 0 <= i < |s[1..]| ==> s[1..][i] == s[i + 1];
      NotSubstringOfAvoiding(p, s[1..]);
    }
  }

  /** Joining strings that avoid `c` with a separator that avoids `c` avoids `c`. */
  lemma {:induction false} JoinAvoids(sep: string, parts: seq<string>, c: char)
    requires Avoids(sep, c)
    requires forall j :: 0 <= j < |parts| ==> Avoids(parts[j], c)
    ensures Avoids(Join(sep, parts), c)
    decreases |parts|
  {
    if |parts| > 1 {
      JoinAvoids(sep, parts[1..], c);
      var rest := Join(sep, parts[1..]);
      var whole := parts[0] + sep + rest;
      forall i | 0 <= i < |whole| ensures whole[i] != c {
        if i < |parts[0]| {
          assert whole[i] == parts[0][i];
        } else if i < |parts[0]| + |sep| {
          assert whole[i] == sep[i - |parts[0]|];
        } else {
          assert whole[i] == rest[i - |parts[0]| - |sep|];
        }
      }
    }
  }

  /** Lower-casing a string with neither `z` nor `Z` yields no `z`. */
  lemma LowerAvoidsZ(s: string)
    requires Avoids(s, 'z') && Avoids(s, 'Z')
    ensures Avoids(Lower(s), 'z')
  {
  }
}
