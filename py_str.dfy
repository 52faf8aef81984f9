/** Python's `str.replace(old, new)` with a non-empty `old`: a left-to-right
    scan that replaces every non-overlapping occurrence. */
module PyStr {

  /** `pat` occurs in `s` starting at index `i`. */
  predicate OccursAt(s: string, pat: string, i: nat)
  {
    i + |pat| <= |s| && s[i..i + |pat|] == pat
  }

  /** No occurrence of `pat` in `s` starts at an index in `[lo, hi)`. */
  predicate NoMatchBetween(s: string, pat: string, lo: nat, hi: nat)
  {
    forall j: nat :: lo <= j < hi ==> !OccursAt(s, pat, j)
  }

  /** Python's `pat in s`. */
  predicate Contains(s: string, pat: string)
  {
    exists i: nat | i <= |s| :: OccursAt(s, pat, i)
  }

  /** The scan of `s.replace(pat, rep)` from index `k` on: a match at `k` is
      replaced and the scan resumes after it; otherwise the character at `k`
      is kept and the scan moves one step. */
  function ReplaceFrom(s: string, pat: string, rep: string, k: nat): (r: string)
    requires |pat| > 0 && k <= |s|
    ensures |rep| <= |pat| ==> |r| <= |s| - k
    decreases |s| - k
  {
    if |s| - k < |pat| then s[k..]
    else if OccursAt(s, pat, k) then rep + ReplaceFrom(s, pat, rep, k + |pat|)
    else [s[k]] + ReplaceFrom(s, pat, rep, k + 1)
  }

  /** `s.replace(pat, rep)`. Python treats an empty `pat` differently (it
      inserts `rep` between all characters); that case is excluded. */
  function ReplaceAll(s: string, pat: string, rep: string): (r: string)
    requires |pat| > 0
    ensures |rep| <= |pat| ==> |r| <= |s|
  {
    ReplaceFrom(s, pat, rep, 0)
  }

  /** A tail of `s` without a match is kept as it is. */
  lemma {:induction false} ReplaceFromAbsent(s: string, pat: string, rep: string, k: nat)
    requires |pat| > 0 && k <= |s|
    requires NoMatchBetween(s, pat, k, |s| + 1)
    ensures ReplaceFrom(s, pat, rep, k) == s[k..]
    decreases |s| - k
  {
    if |s| - k >= |pat| {
      assert !OccursAt(s, pat, k);
      ReplaceFromAbsent(s, pat, rep, k + 1);
      assert [s[k]] + s[k + 1..] == s[k..];
    }
  }

  /** A string that does not contain the pattern is returned unchanged. */
  lemma ReplaceAllAbsent(s: string, pat: string, rep: string)
    requires |pat| > 0
    requires !Contains(s, pat)
    ensures ReplaceAll(s, pat, rep) == s
  {
    ReplaceFromAbsent(s, pat, rep, 0);
    assert s[0..] == s;
  }

  /** Concatenation regrouped around a single leading character. */
  lemma Regroup(c: char, a: string, ca: string, rep: string, tail: string)
    requires [c] + a == ca
    ensures [c] + (a + rep + tail) == ca + rep + tail
  {
  }

  /** From `k` on, the scan replaces the leftmost match `i` first and then
      continues after it. Together with ReplaceFromAbsent this pins down the
      result for every input. */
  lemma {:induction false} ReplaceFromLeftmost(s: string, pat: string, rep: string, k: nat, i: nat)
    requires |pat| > 0 && k <= i
    requires OccursAt(s, pat, i) && NoMatchBetween(s, pat, k, i)
    ensures ReplaceFrom(s, pat, rep, k) == s[k..i] + rep + ReplaceFrom(s, pat, rep, i + |pat|)
    decreases i - k
  {
    var after := ReplaceFrom(s, pat, rep, i + |pat|);
    if k == i {
      assert s[k..i] + rep == rep;
    } else {
      assert !OccursAt(s, pat, k);
      ReplaceFromLeftmost(s, pat, rep, k + 1, i);
      Regroup(s[k], s[k + 1..i], s[k..i], rep, after);
    }
  }

  /** `s.replace` replaces the leftmost match, keeps what precedes it, and
      continues scanning right after it: matches never overlap. */
  lemma ReplaceAllLeftmost(s: string, pat: string, rep: string, i: nat)
    requires |pat| > 0
    requires OccursAt(s, pat, i) && NoMatchBetween(s, pat, 0, i)
    ensures ReplaceAll(s, pat, rep) == s[..i] + rep + ReplaceFrom(s, pat, rep, i + |pat|)
  {
    ReplaceFromLeftmost(s, pat, rep, 0, i);
    assert s[0..i] == s[..i];
  }

  /** When the replacement is shorter than the pattern, a match at or after
      `k` makes the rest of the scan strictly shorter than the tail. */
  lemma {:induction false} ReplaceFromShrinks(s: string, pat: string, rep: string, k: nat, i: nat)
    requires |pat| > 0 && |rep| < |pat| && k <= i
    requires OccursAt(s, pat, i)
    ensures |ReplaceFrom(s, pat, rep, k)| < |s| - k
    decreases i - k
  {
    if !OccursAt(s, pat, k) {
      ReplaceFromShrinks(s, pat, rep, k + 1, i);
    }
  }

  /** When the replacement is shorter than the pattern, a string that does
      contain the pattern gets strictly shorter. */
  lemma ReplaceAllShrinks(s: string, pat: string, rep: string)
    requires |pat| > 0 && |rep| < |pat|
    requires Contains(s, pat)
    ensures |ReplaceAll(s, pat, rep)| < |s|
  {
    var i: nat :| i <= |s| && OccursAt(s, pat, i);
    ReplaceFromShrinks(s, pat, rep, 0, i);
  }

  /** Removing every match leaves `s` unchanged exactly when `pat` does not
      occur in `s`. */
  lemma RemoveAllUnchangedIff(s: string, pat: string)
    requires |pat| > 0
    ensures ReplaceAll(s, pat, "") == s <==> !Contains(s, pat)
  {
    if Contains(s, pat) {
      ReplaceAllShrinks(s, pat, "");
    } else {
      ReplaceAllAbsent(s, pat, "");
    }
  }

  /** A string that starts with `pat` and has no further match gives `rep`
      followed by the rest. */
  lemma ReplaceLeadingOnly(pat: string, rest: string, rep: string)
    requires |pat| > 0
    requires !Contains(rest, pat)
    ensures ReplaceAll(pat + rest, pat, rep) == rep + rest
  {
    var s := pat + rest;
    assert OccursAt(s, pat, 0) by { assert s[0..|pat|] == pat; }
    forall j: nat | |pat| <= j <= |s| ensures !OccursAt(s, pat, j) {
      if OccursAt(s, pat, j) {
        assert s[j..j + |pat|] == rest[j - |pat|..j - |pat| + |pat|];
        assert OccursAt(rest, pat, j - |pat|);
      }
    }
    ReplaceFromAbsent(s, pat, rep, |pat|);
    assert s[|pat|..] == rest;
  }

  /** A string that lacks the first character of `pat` cannot contain `pat`. */
  lemma AbsentWithoutFirstChar(s: string, pat: string)
    requires |pat| > 0 && pat[0] !in s
    ensures !Contains(s, pat)
  {
    forall i: nat | i + |pat| <= |s| ensures !OccursAt(s, pat, i) {
      assert s[i..i + |pat|][0] == s[i];
    }
  }
}
