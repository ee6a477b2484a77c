/**
 * The four field extractions that api/diag/index.js performs on an ADO-style
 * connection string with patterns of the shape `KEY([^D]+)`: a literal key
 * followed by a capture group of one or more characters other than the
 * delimiter `D`.  The general regular-expression engine is not modelled; the
 * search below is what such a pattern does: try the positions left to right,
 * take the first one where the key occurs and is followed by at least one
 * non-delimiter character, and capture the greedy (maximal) run.
 */
module ConnectionString {
  import opened Wrappers

  /** The pattern `key([^delim]+)` can match starting at position `i` of `s`. */
  predicate MatchesAt(s: string, key: string, delim: char, i: nat) {
    i + |key| < |s| && s[i..i + |key|] == key && s[i + |key|] != delim
  }

  /** `v` is the longest delimiter-free run of `s` starting at `j`. */
  predicate IsMaximalRun(s: string, j: nat, delim: char, v: string) {
    && j + |v| <= |s|
    && s[j..j + |v|] == v
    && delim !in v
    && (j + |v| == |s| || s[j + |v|] == delim)
  }

  /**
   * Declarative meaning of "the pattern matches and its group is `v`": the
   * leftmost match position is `i`, and `v` is the greedy run after the key.
   */
  ghost predicate IsCapture(s: string, key: string, delim: char, v: string) {
    exists i: nat :: IsLeftmostMatch(s, key, delim, i) && IsMaximalRun(s, i + |key|, delim, v)
  }

  /** `i` is the first position where the pattern matches. */
  ghost predicate IsLeftmostMatch(s: string, key: string, delim: char, i: nat) {
    MatchesAt(s, key, delim, i) && forall k: nat :: k < i ==> !MatchesAt(s, key, delim, k)
  }

  /** The greedy `[^delim]*` run of `s` starting at index `j`. */
  function RunFrom(s: string, j: nat, delim: char): (r: string)
    requires j <= |s|
    ensures IsMaximalRun(s, j, delim, r)
    decreases |s| - j
  {
    if j == |s| || s[j] == delim then [] else [s[j]] + RunFrom(s, j + 1, delim)
  }

  /** The leftmost position at or after `from` where the pattern matches. */
  function FirstMatch(s: string, key: string, delim: char, from: nat): (r: Option<nat>)
    ensures r.Some? ==> from <= r.value && MatchesAt(s, key, delim, r.value)
    ensures forall k: nat :: from <= k && (r.None? || k < r.value) ==> !MatchesAt(s, key, delim, k)
    decreases |s| - from
  {
    if from + |key| >= |s| then None
    else if MatchesAt(s, key, delim, from) then Some(from)
    else FirstMatch(s, key, delim, from + 1)
  }

  /**
   * `(s.match(/key([^delim]+)/) || [])[1]`: the first capture group, or
   * `None` (JavaScript's `undefined`) when the pattern does not match.
   */
  function Capture(s: string, key: string, delim: char): (r: Option<string>)
    ensures r.None? <==> forall k: nat :: !MatchesAt(s, key, delim, k)
    ensures r.Some? ==> r.value != [] && delim !in r.value
  {
    match FirstMatch(s, key, delim, 0)
    case None => None
    case Some(i) => Some(RunFrom(s, i + |key|, delim))
  }

  /** A maximal run is unique: it is the one `RunFrom` computes. */
  lemma {:induction false} MaximalRunUnique(s: string, j: nat, delim: char, v: string)
    requires IsMaximalRun(s, j, delim, v)
    ensures v == RunFrom(s, j, delim)
    decreases |v|
  {
    if v != [] {
      assert s[j] == v[0];
      assert IsMaximalRun(s, j + 1, delim, v[1..]) by {
        assert s[j + 1..j + 1 + |v[1..]|] == s[j..j + |v|][1..];
      }
      MaximalRunUnique(s, j + 1, delim, v[1..]);
    }
  }

  /** The search from `from` stops at the first matching position after it. */
  lemma {:induction false} FirstMatchIsLeftmost(s: string, key: string, delim: char, from: nat, i: nat)
    requires from <= i && MatchesAt(s, key, delim, i)
    requires forall k: nat :: from <= k < i ==> !MatchesAt(s, key, delim, k)
    ensures FirstMatch(s, key, delim, from) == Some(i)
    decreases i - from
  {
    if from < i {
      assert !MatchesAt(s, key, delim, from);
      FirstMatchIsLeftmost(s, key, delim, from + 1, i);
    }
  }

  /** A group `Capture` returns is the group of the leftmost, greedy match. */
  lemma CaptureIsLeftmostGreedyGroup(s: string, key: string, delim: char)
    requires Capture(s, key, delim).Some?
    ensures IsCapture(s, key, delim, Capture(s, key, delim).value)
  {
    var i := FirstMatch(s, key, delim, 0).value;
    assert IsLeftmostMatch(s, key, delim, i);
    assert IsMaximalRun(s, i + |key|, delim, Capture(s, key, delim).value);
  }

  /** The group of the leftmost, greedy match is what `Capture` returns. */
  lemma LeftmostGreedyGroupIsCapture(s: string, key: string, delim: char, v: string)
    requires IsCapture(s, key, delim, v)
    ensures Capture(s, key, delim) == Some(v)
  {
    var i: nat :| IsLeftmostMatch(s, key, delim, i) && IsMaximalRun(s, i + |key|, delim, v);
    FirstMatchIsLeftmost(s, key, delim, 0, i);
    MaximalRunUnique(s, i + |key|, delim, v);
  }
}
