/** The two string operations of Python 2's `str` that the core relies on: ASCII `lower()`
    and `replace(old, new)`, which rewrites every non-overlapping occurrence, left to right. */
module Text {

  predicate IsUpper(c: char) {
    'A' <= c <= 'Z'
  }

  function LowerChar(c: char): char {
    if IsUpper(c) then (c as int + 32) as char else c
  }

  /** `s.lower()` on a byte string: only the ASCII capitals change. */
  function Lower(s: string): (r: string)
    ensures |r| == |s|
    ensures forall i :: 0 <= i < |s| ==> r[i] == LowerChar(s[i])
    ensures forall i :: 0 <= i < |r| ==> !IsUpper(r[i])
  {
    if s == [] then [] else [LowerChar(s[0])] + Lower(s[1..])
  }

  /** A string with no capital letter is its own lower-case form. */
  lemma {:induction false} LowerIdentity(s: string)
    requires forall i :: 0 <= i < |s| ==> !IsUpper(s[i])
    ensures Lower(s) == s
  {
    if s != [] {
      LowerIdentity(s[1..]);
    }
  }

  /** Lower-casing works character by character, so it distributes over concatenation. */
  lemma LowerAppend(a: string, b: string)
    ensures Lower(a + b) == Lower(a) + Lower(b)
  {
    var l := Lower(a + b);
    assert forall i :: 0 <= i < |a| ==> l[i] == LowerChar(a[i]);
    assert forall i :: |a| <= i < |a + b| ==> l[i] == LowerChar(b[i - |a|]);
  }

  /** `pat` occurs in `s` starting at index `i`. */
  predicate MatchAt(s: string, pat: string, i: nat) {
    i + |pat| <= |s| && s[i..i + |pat|] == pat
  }

  /** `s.replace(pat, rep)`: scans left to right and rewrites every occurrence of `pat`,
      resuming after the rewritten occurrence. */
  function ReplaceAll(s: string, pat: string, rep: string): string
    requires pat != []
    decreases |s|
  {
    if |s| < |pat| then s
    else if s[..|pat|] == pat then rep + ReplaceAll(s[|pat|..], pat, rep)
    else [s[0]] + ReplaceAll(s[1..], pat, rep)
  }

  /** A string in which `pat` does not occur comes back unchanged. */
  lemma {:induction false} ReplaceAllNoMatch(s: string, pat: string, rep: string)
    requires pat != []
    requires forall i :: 0 <= i < |s| ==> !MatchAt(s, pat, i)
    ensures ReplaceAll(s, pat, rep) == s
    decreases |s|
  {
    if |s| >= |pat| {
      assert !MatchAt(s, pat, 0);
      forall i | 0 <= i < |s[1..]|
        ensures !MatchAt(s[1..], pat, i)
      {
        MatchAtTail(s, pat, i);
      }
      ReplaceAllNoMatch(s[1..], pat, rep);
    }
  }

  /** Dropping the first character shifts every occurrence one place to the left. */
  lemma MatchAtTail(s: string, pat: string, i: nat)
    requires s != []
    ensures MatchAt(s[1..], pat, i) <==> MatchAt(s, pat, i + 1)
  {
    if i + |pat| <= |s[1..]| {
      assert s[1..][i..i + |pat|] == s[i + 1..i + 1 + |pat|];
    }
  }

  /** When the first occurrence of `pat` in `a + pat + b` is the one after `a`, the text before
      it is kept, that occurrence becomes `rep`, and the rest is rewritten in turn. */
  lemma {:induction false} ReplaceAllFirst(a: string, pat: string, b: string, rep: string)
    requires pat != []
    requires forall i :: 0 <= i < |a| ==> !MatchAt(a + pat, pat, i)
    ensures ReplaceAll(a + pat + b, pat, rep) == a + rep + ReplaceAll(b, pat, rep)
    decreases |a|
  {
    var s := a + pat + b;
    if a == [] {
      assert s == pat + b;
      assert s[..|pat|] == pat && s[|pat|..] == b;
    } else {
      var a' := a[1..];
      assert (a + pat)[1..] == a' + pat;
      forall i | 0 <= i < |a'|
        ensures !MatchAt(a' + pat, pat, i)
      {
        MatchAtTail(a + pat, pat, i);
      }
      ReplaceAllFirst(a', pat, b, rep);
      assert !MatchAt(a + pat, pat, 0);
      assert s[..|pat|] == (a + pat)[..|pat|];
      assert s[0] == a[0] && s[1..] == a' + pat + b;
      calc {
        ReplaceAll(s, pat, rep);
        [a[0]] + ReplaceAll(a' + pat + b, pat, rep);
        [a[0]] + (a' + rep + ReplaceAll(b, pat, rep));
        { assert [a[0]] + a' == a; }
        a + rep + ReplaceAll(b, pat, rep);
      }
    }
  }
}
