/**
  Character-level text operations the session engine relies on: case folding,
  editing a buffer at a cursor, and the three ways one string can occur in
  another (as a prefix, as a contiguous substring, as a subsequence).
 */
module Text {

  /** ASCII case folding of one character; every other character is kept. */
  function Lower(c: char): char
  {
    if 'A' <= c <= 'Z' then (c as int + 32) as char else c
  }

  /** Case folding of a whole string, character by character. */
  function LowerStr(s: string): (r: string)
    ensures |r| == |s|
    ensures forall i :: 0 <= i < |s| ==> r[i] == Lower(s[i])
  {
    if s == [] then [] else [Lower(s[0])] + LowerStr(s[1..])
  }

  /** Folding twice folds once. */
  lemma LowerStrIdempotent(s: string)
    ensures LowerStr(LowerStr(s)) == LowerStr(s)
  {
  }

  /** A string without upper-case ASCII letters is its own folding. */
  lemma LowerStrFixed(s: string)
    requires forall i :: 0 <= i < |s| ==> !('A' <= s[i] <= 'Z')
    ensures LowerStr(s) == s
  {
  }

  /** `s` with `c` inserted before position `i` (`String::insert`). */
  function InsertAt(s: string, i: nat, c: char): (r: string)
    requires i <= |s|
    ensures |r| == |s| + 1
    ensures r[..i] == s[..i] && r[i] == c && r[i + 1..] == s[i..]
  {
    s[..i] + [c] + s[i..]
  }

  /** `s` without the character at position `i` (`String::remove`). */
  function RemoveAt(s: string, i: nat): (r: string)
    requires i < |s|
    ensures |r| == |s| - 1
    ensures r[..i] == s[..i] && r[i..] == s[i + 1..]
  {
    s[..i] + s[i + 1..]
  }

  /** Removing what was just inserted gives the original text back. */
  lemma RemoveInsert(s: string, i: nat, c: char)
    requires i <= |s|
    ensures RemoveAt(InsertAt(s, i, c), i) == s
  {
    var t := InsertAt(s, i, c);
    assert RemoveAt(t, i) == t[..i] + t[i + 1..];
    assert s == s[..i] + s[i..];
  }

  /** `p` is a prefix of `s` (`str::starts_with`). */
  predicate IsPrefix(p: string, s: string)
  {
    |p| <= |s| && s[..|p|] == p
  }

  /** `p` occurs in `s` starting at position `k`. */
  predicate OccursAt(s: string, p: string, k: int)
  {
    0 <= k && k + |p| <= |s| && s[k..k + |p|] == p
  }

  /** `p` occurs contiguously somewhere in `s` (`str::contains`), decided by
      trying every start position from the left. */
  function Contains(s: string, p: string): (r: bool)
    ensures r <==> exists k :: OccursAt(s, p, k)
    decreases |s|
  {
    if IsPrefix(p, s) then
      assert OccursAt(s, p, 0);
      true
    else if s == [] then
      assert forall k :: !OccursAt(s, p, k);
      false
    else
      var rest := Contains(s[1..], p);
      ContainsStep(s, p);
      rest
  }

  /** When `p` is not a prefix of a non-empty `s`, it occurs in `s` exactly
      when it occurs in `s[1..]`, one position further left. */
  lemma ContainsStep(s: string, p: string)
    requires s != [] && !IsPrefix(p, s)
    ensures (exists k :: OccursAt(s, p, k)) <==> (exists k :: OccursAt(s[1..], p, k))
  {
    assert !OccursAt(s, p, 0) by {
      assert |p| <= |s| ==> s[..|p|] == s[0..0 + |p|];
    }
    forall k | OccursAt(s, p, k)
      ensures OccursAt(s[1..], p, k - 1)
    {
      assert s[1..][k - 1..k - 1 + |p|] == s[k..k + |p|];
    }
    forall k | OccursAt(s[1..], p, k)
      ensures OccursAt(s, p, k + 1)
    {
      assert s[1..][k..k + |p|] == s[k + 1..k + 1 + |p|];
    }
  }

  /** `idx` picks, for every character of `q`, a position of `t` holding that
      character, and the positions strictly increase. */
  ghost predicate Embeds(idx: seq<int>, q: string, t: string)
  {
    && |idx| == |q|
    && (forall i :: 0 <= i < |idx| ==> 0 <= idx[i] < |t| && t[idx[i]] == q[i])
    && (forall i, j :: 0 <= i < j < |idx| ==> idx[i] < idx[j])
  }

  /** `q` is a subsequence of `t`: its characters occur in `t` in order, not
      necessarily next to each other. */
  ghost predicate IsSubsequence(q: string, t: string)
  {
    exists idx :: Embeds(idx, q, t)
  }

  /** A string holding a character that `t` lacks is no subsequence of `t`. */
  lemma MissingCharRejects(q: string, t: string, i: int)
    requires 0 <= i < |q| && q[i] !in t
    ensures !IsSubsequence(q, t)
  {
    forall idx: seq<int> | |idx| == |q| && 0 <= idx[i] < |t|
      ensures t[idx[i]] != q[i]
    {
    }
  }

  /** Every contiguous occurrence is also an occurrence as a subsequence. */
  lemma OccurrenceIsSubsequence(s: string, p: string, k: int)
    requires OccursAt(s, p, k)
    ensures IsSubsequence(p, s)
  {
    var idx := seq(|p|, i => k + i);
    assert forall i :: 0 <= i < |p| ==> s[idx[i]] == s[k..k + |p|][i];
    assert Embeds(idx, p, s);
  }

  /** A prefix is an occurrence at position 0. */
  lemma PrefixIsOccurrence(p: string, s: string)
    requires IsPrefix(p, s)
    ensures OccursAt(s, p, 0)
  {
  }
}
