/**
 * The two Python string operations the response cleanup relies on:
 * `str.replace(p, "")` and `str.strip()` with no argument.
 */
module PyString {

  /** Python's `str.isspace()` for one character: the white-space code points
      that a bare `strip()` removes. */
  predicate IsSpace(c: char) {
    || c == ' '
    || ('\t' <= c <= '\r')
    || ('\U{1C}' <= c <= '\U{1F}')
    || c == '\U{85}' || c == '\U{A0}' || c == '\U{1680}'
    || ('\U{2000}' <= c <= '\U{200A}')
    || c == '\U{2028}' || c == '\U{2029}' || c == '\U{202F}'
    || c == '\U{205F}' || c == '\U{3000}'
  }

  predicate AllSpace(t: string) {
    forall i :: 0 <= i < |t| ==> IsSpace(t[i])
  }

  /** Neither end of `t` is white space: what `strip()` returns. */
  predicate Stripped(t: string) {
    |t| == 0 || (!IsSpace(t[0]) && !IsSpace(t[|t| - 1]))
  }

  /** `p` occurs in `t` starting at index `i`. */
  predicate OccursAt(t: string, p: string, i: int) {
    0 <= i && i + |p| <= |t| && t[i..i + |p|] == p
  }

  /** Python's `p in t`. */
  predicate Contains(t: string, p: string) {
    exists i :: 0 <= i <= |t| && OccursAt(t, p, i)
  }

  // ---------------------------------------------------------------------
  // strip()

  /** How many white-space characters `t` starts with. */
  function Lead(t: string): (n: nat)
    ensures n <= |t|
    ensures forall i :: 0 <= i < n ==> IsSpace(t[i])
    ensures n < |t| ==> !IsSpace(t[n])
  {
    if |t| > 0 && IsSpace(t[0]) then 1 + Lead(t[1..]) else 0
  }

  /** How many white-space characters `t` ends with. */
  function Trail(t: string): (n: nat)
    ensures n <= |t|
    ensures forall i :: |t| - n <= i < |t| ==> IsSpace(t[i])
    ensures n < |t| ==> !IsSpace(t[|t| - 1 - n])
  {
    if |t| > 0 && IsSpace(t[|t| - 1]) then 1 + Trail(t[..|t| - 1]) else 0
  }

  /** `lstrip()` */
  function TrimStart(t: string): string {
    t[Lead(t)..]
  }

  /** `rstrip()` */
  function TrimEnd(t: string): string {
    t[..|t| - Trail(t)]
  }

  /** `strip()`: white space gone from both ends. */
  function Strip(t: string): (r: string)
    ensures Stripped(r)
    ensures |r| <= |t|
  {
    var m := TrimStart(t);
    var r := TrimEnd(m);
    assert r != [] ==> r[0] == t[Lead(t)];
    r
  }

  /** `strip()` is characterised by its decomposition: white space, then a
      stripped body, then white space, always yields exactly the body. */
  lemma StripUnique(w1: string, body: string, w2: string)
    requires AllSpace(w1) && Stripped(body) && AllSpace(w2)
    ensures Strip(w1 + body + w2) == body
  {
    var t := w1 + body + w2;
    var a := Lead(t);
    if body == [] {
      assert AllSpace(t) by {
        forall i | 0 <= i < |t| ensures IsSpace(t[i]) {
          if i < |w1| { assert t[i] == w1[i]; } else { assert t[i] == w2[i - |w1|]; }
        }
      }
      assert a == |t|;
    } else {
      assert t[|w1|] == body[0];
      assert forall i :: 0 <= i < |w1| ==> t[i] == w1[i];
      assert a == |w1|;
      var m := TrimStart(t);
      assert m == body + w2;
      var b := Trail(m);
      assert m[|body| - 1] == body[|body| - 1];
      assert forall i :: 0 <= i < |w2| ==> m[|body| + i] == w2[i];
      assert b == |w2|;
      assert m[..|m| - b] == body;
    }
  }

  /** Stripping a stripped string changes nothing. */
  lemma StripStripped(t: string)
    requires Stripped(t)
    ensures Strip(t) == t
  {
  }

  /** `strip()` cannot create an occurrence: any occurrence in its result is
      one in its input. */
  lemma StripKeepsAbsence(t: string, p: string)
    requires !Contains(t, p)
    ensures !Contains(Strip(t), p)
  {
    var a := Lead(t);
    var r := Strip(t);
    assert r == t[a..a + |r|];
    forall j | OccursAt(r, p, j)
      ensures OccursAt(t, p, a + j)
    {
      forall k | 0 <= k < |p|
        ensures t[a + j..a + j + |p|][k] == p[k]
      {
        assert r[j + k] == t[a + j + k];
        assert r[j..j + |p|][k] == r[j + k];
      }
    }
  }

  // ---------------------------------------------------------------------
  // replace(p, "")

  /** `s.replace(p, "")`: scans left to right, deletes each occurrence of `p`
      that starts where the scan stands and resumes right after it; what it
      emits is never scanned again, so occurrences that only form once a
      match is gone are kept. It only ever deletes characters of `p`. */
  function Remove(s: string, p: string): (r: string)
    requires p != []
    ensures |r| <= |s|
    decreases |s|
  {
    if |s| < |p| then s
    else if s[..|p|] == p then Remove(s[|p|..], p)
    else [s[0]] + Remove(s[1..], p)
  }

  /** `replace(p, "")` only deletes: every character it keeps is one of the
      input's, and characters that do not appear in `p` all survive. */
  lemma {:induction false} RemoveOnlyDeletesPattern(s: string, p: string)
    requires p != []
    ensures multiset(Remove(s, p)) <= multiset(s)
    ensures forall c :: c !in p ==> multiset(Remove(s, p))[c] == multiset(s)[c]
    decreases |s|
  {
    if |s| < |p| {
    } else if s[..|p|] == p {
      assert s == s[..|p|] + s[|p|..];
      RemoveOnlyDeletesPattern(s[|p|..], p);
    } else {
      assert s == [s[0]] + s[1..];
      RemoveOnlyDeletesPattern(s[1..], p);
    }
  }

  /** Where `p` does not start, the scan keeps one character and moves on. */
  lemma RemoveStep(t: string, p: string)
    requires p != [] && t != [] && !OccursAt(t, p, 0)
    ensures Remove(t, p) == [t[0]] + Remove(t[1..], p)
  {
  }

  /** A character other than `p`'s first cannot start an occurrence of `p`. */
  lemma NoOccurrenceAtOtherHead(t: string, p: string)
    requires p != [] && t != [] && t[0] != p[0]
    ensures !OccursAt(t, p, 0)
  {
    if |t| >= |p| {
      assert t[..|p|][0] == t[0];
    }
  }

  /** With no occurrence of `p`, `replace` returns its input. */
  lemma {:induction false} RemoveAbsent(s: string, p: string)
    requires p != [] && !Contains(s, p)
    ensures Remove(s, p) == s
    decreases |s|
  {
    if |s| < |p| {
    } else if s[..|p|] == p {
      assert OccursAt(s, p, 0);
    } else {
      forall i | OccursAt(s[1..], p, i)
        ensures OccursAt(s, p, i + 1)
      {
        assert s[1..][i..i + |p|] == s[i + 1..i + 1 + |p|];
      }
      RemoveAbsent(s[1..], p);
      assert [s[0]] + s[1..] == s;
    }
  }

  /** A prefix free of `p`'s first character passes through untouched. */
  lemma {:induction false} RemoveAfterPlain(x: string, y: string, p: string)
    requires p != []
    requires forall i :: 0 <= i < |x| ==> x[i] != p[0]
    ensures Remove(x + y, p) == x + Remove(y, p)
    decreases |x|
  {
    if x != [] {
      var t := x + y;
      assert t[0] == x[0] && t[1..] == x[1..] + y;
      NoOccurrenceAtOtherHead(t, p);
      RemoveStep(t, p);
      RemoveAfterPlain(x[1..], y, p);
      assert [x[0]] + (x[1..] + Remove(y, p)) == x + Remove(y, p);
    } else {
      assert x + y == y;
    }
  }

  /** An occurrence at the very front is deleted and the scan resumes after it. */
  lemma RemoveLeading(p: string, y: string)
    requires p != []
    ensures Remove(p + y, p) == Remove(y, p)
  {
  }

  const Fence: string := "```"

  /** Deleting every triple backtick leaves no triple backtick behind: every
      run of backticks is cut down to its length modulo three, and the
      characters separating two runs are never deleted. */
  lemma {:induction false} RemoveFenceLeavesNone(s: string)
    ensures !Contains(Remove(s, Fence), Fence)
    decreases |s|
  {
    var r := Remove(s, Fence);
    if |s| < 3 {
    } else if s[..3] == Fence {
      RemoveFenceLeavesNone(s[3..]);
    } else {
      var rest := Remove(s[1..], Fence);
      RemoveFenceLeavesNone(s[1..]);
      assert r == [s[0]] + rest;
      // an occurrence further right would be one in `rest`
      forall i | 1 <= i && OccursAt(r, Fence, i)
        ensures OccursAt(rest, Fence, i - 1)
      {
        assert r[i..i + 3] == rest[i - 1..i + 2];
      }
      // and one of the first three characters of `r` is not a backtick
      assert s[..3] == [s[0], s[1], s[2]];
      if s[0] == '`' {
        if s[1] != '`' {
          NoOccurrenceAtOtherHead(s[1..], Fence);
          RemoveStep(s[1..], Fence);
          assert r[1] == s[1];
        } else {
          var t := s[1..];
          if |t| >= 3 {
            assert t[..3] == [t[0], t[1], t[2]];
            NoOccurrenceAtOtherHead(t[1..], Fence);
            RemoveStep(t[1..], Fence);
          }
          assert |r| >= 3 ==> r[2] == s[2];
        }
      }
    }
  }
}
