/**
 * The markdown cleanup every agent applies to the model's answer before
 * handing it to the JSON parser: delete each "```json", then each "```",
 * then strip surrounding white space.
 */
module Cleanup {
  import opened PyString

  const JsonFence: string := "```json"

  /** `text.replace("```json", "").replace("```", "").strip()`. The result
      holds no code fence of either kind and has no white space at its ends. */
  function Clean(s: string): (r: string)
    ensures !Contains(r, Fence)
    ensures !Contains(r, JsonFence)
    ensures Stripped(r)
    ensures |r| <= |s|
  {
    var u := Remove(Remove(s, JsonFence), Fence);
    RemoveFenceLeavesNone(Remove(s, JsonFence));
    StripKeepsAbsence(u, Fence);
    FenceFreeIsJsonFenceFree(Strip(u));
    Strip(u)
  }

  /** Every "```json" starts with a "```". */
  lemma FenceFreeIsJsonFenceFree(t: string)
    requires !Contains(t, Fence)
    ensures !Contains(t, JsonFence)
  {
    forall i | OccursAt(t, JsonFence, i)
      ensures OccursAt(t, Fence, i)
    {
      assert t[i..i + 3] == t[i..i + 7][..3];
    }
  }

  /** Cleaning twice is cleaning once. */
  lemma CleanIdempotent(s: string)
    ensures Clean(Clean(s)) == Clean(s)
  {
    var u := Clean(s);
    RemoveAbsent(u, JsonFence);
    RemoveAbsent(u, Fence);
    StripStripped(u);
  }

  /** Text with no "```" and no white space at its ends passes unchanged:
      the cleanup tolerates the absence of fences, and single or double
      backticks inside the text survive it. */
  lemma CleanKeepsFenceFree(s: string)
    requires !Contains(s, Fence) && Stripped(s)
    ensures Clean(s) == s
  {
    FenceFreeIsJsonFenceFree(s);
    RemoveAbsent(s, JsonFence);
    RemoveAbsent(s, Fence);
    StripStripped(s);
  }

  /** A "```json" in `x + "```"` would need a "```" inside `x`. */
  lemma ClosingFenceStartsNoJsonFence(x: string)
    requires !Contains(x, Fence)
    ensures !Contains(x + Fence, JsonFence)
  {
    var t := x + Fence;
    forall i | OccursAt(t, JsonFence, i)
      ensures OccursAt(x, Fence, i)
    {
      assert t[i..i + 3] == t[i..i + 7][..3];
      assert x[i..i + 3] == t[i..i + 3];
    }
  }

  /** White space holds no backtick, so a "```" around a fence-free body
      would have to lie inside the body. */
  lemma SpacedBodyHasNoFence(w1: string, body: string, w2: string)
    requires AllSpace(w1) && AllSpace(w2) && !Contains(body, Fence)
    ensures !Contains(w1 + body + w2, Fence)
  {
    var x := w1 + body + w2;
    forall i | OccursAt(x, Fence, i)
      ensures OccursAt(body, Fence, i - |w1|)
    {
      assert x[i] == x[i..i + 3][0] && x[i + 2] == x[i..i + 3][2];
      assert !IsSpace(x[i]) && !IsSpace(x[i + 2]);
      assert forall j :: 0 <= j < |w1| ==> x[j] == w1[j];
      assert forall j :: |w1| + |body| <= j < |x| ==> x[j] == w2[j - |w1| - |body|];
      assert body[i - |w1|..i - |w1| + 3] == x[i..i + 3];
    }
  }

  /** The second pass deletes a closing "```" and nothing before it, even
      when the text ends in one or two backticks. */
  lemma {:induction false} RemoveClosingFence(x: string)
    requires !Contains(x, Fence)
    ensures Remove(x + Fence, Fence) == x
    decreases |x|
  {
    var t := x + Fence;
    if |x| < 3 && t[..3] == Fence {
      // `x` is all backticks, and so is what is left after the match
      assert t[3..] == x by {
        forall j | 0 <= j < |x| ensures t[3..][j] == x[j] {
          assert x[j] == t[..3][j];
        }
      }
    } else {
      if |x| >= 3 {
        assert !OccursAt(x, Fence, 0);
        assert t[..3] == x[..3];
      }
      assert t[..3] != Fence;
      assert x != [];
      assert t[1..] == x[1..] + Fence;
      forall i | OccursAt(x[1..], Fence, i)
        ensures OccursAt(x, Fence, i + 1)
      {
        assert x[1..][i..i + 3] == x[i + 1..i + 4];
      }
      RemoveClosingFence(x[1..]);
      assert [x[0]] + x[1..] == x;
    }
  }

  /** A payload wrapped as "```json", white space, payload, white space,
      "```" comes out as exactly the payload, whatever single or double
      backticks the payload holds. */
  lemma CleanUnwrapsFence(w1: string, body: string, w2: string)
    requires AllSpace(w1) && AllSpace(w2)
    requires !Contains(body, Fence) && Stripped(body)
    ensures Clean(JsonFence + w1 + body + w2 + Fence) == body
  {
    var x := w1 + body + w2;
    SpacedBodyHasNoFence(w1, body, w2);
    assert JsonFence + w1 + body + w2 + Fence == JsonFence + (x + Fence);
    RemoveLeading(JsonFence, x + Fence);
    ClosingFenceStartsNoJsonFence(x);
    RemoveAbsent(x + Fence, JsonFence);
    RemoveClosingFence(x);
    StripUnique(w1, body, w2);
  }

  /** `k` backticks in a row. */
  function Ticks(k: nat): (r: string)
    ensures |r| == k && forall i :: 0 <= i < k ==> r[i] == '`'
  {
    seq(k, _ => '`')
  }

  /** Three backticks and then a character that is not one. */
  predicate FenceLed(p: string) {
    |p| >= 4 && p[0] == '`' && p[1] == '`' && p[2] == '`' && p[3] != '`'
  }

  /** A run of backticks followed by such a pattern does not start with it:
      the window's fourth character is a backtick. */
  lemma TicksThenPatternNoMatch(k: nat, p: string, y: string)
    requires FenceLed(p) && k >= 1
    ensures (Ticks(k) + p + y)[..|p|] != p
  {
  }

  /** Dropping the first backtick of the run. */
  lemma TicksThenPatternTail(k: nat, p: string, y: string)
    requires k >= 1
    ensures (Ticks(k) + p + y)[1..] == Ticks(k - 1) + p + y
    ensures (Ticks(k) + p + y)[0] == '`'
  {
  }

  /** Backticks in front of a pattern that begins with three backticks and a
      fourth character that is not one are stepped over and kept: at each of
      them the window's fourth character is a backtick, so no match starts
      there. */
  lemma {:induction false} TicksBeforePatternKept(k: nat, p: string, y: string)
    requires FenceLed(p)
    ensures Remove(Ticks(k) + p + y, p) == Ticks(k) + Remove(y, p)
    decreases k
  {
    var t := Ticks(k) + p + y;
    if k == 0 {
      assert t == p + y;
      RemoveLeading(p, y);
    } else {
      var rest := Ticks(k - 1) + p + y;
      TicksThenPatternNoMatch(k, p, y);
      TicksThenPatternTail(k, p, y);
      RemoveStep(t, p);
      assert Remove(t, p) == ['`'] + Remove(rest, p);
      TicksBeforePatternKept(k - 1, p, y);
      assert ['`'] + (Ticks(k - 1) + Remove(y, p)) == (['`'] + Ticks(k - 1)) + Remove(y, p);
      assert ['`'] + Ticks(k - 1) == Ticks(k);
    }
  }

  /** The first `replace` does not rescan its own output: backticks standing
      right before a "```json" are stepped over one by one and kept, the
      "```json" is deleted and the scan goes on after it. So "```" followed by
      "```jsonjson" comes out of the first pass as a fresh "```json", which
      only the second `replace` takes apart. */
  lemma FirstPassDoesNotRescan(k: nat, y: string)
    ensures Remove(Ticks(k) + JsonFence + y, JsonFence) == Ticks(k) + Remove(y, JsonFence)
  {
    TicksBeforePatternKept(k, JsonFence, y);
  }

  /** The example above, written out: the first pass turns
      "``````jsonjson" into "```json", and the whole cleanup leaves "json". */
  lemma FirstPassFormsFence()
    ensures Remove(Fence + JsonFence + "json", JsonFence) == JsonFence
    ensures Clean(Fence + JsonFence + "json") == "json"
  {
    assert Ticks(3) == Fence;
    FirstPassDoesNotRescan(3, "json");
    assert Remove("json", JsonFence) == "json";
    assert Fence + "json" == JsonFence;
    RemoveLeading(Fence, "json");
    RemoveAfterPlain("json", [], Fence);
    assert "json" + [] == "json";
    StripStripped("json");
  }
}
