/**
  The search box of the list views: an editable query with an activation
  flag, a case-insensitive subsequence matcher, and the tiered score used to
  rank matches.
 */
module Search {
  import opened Text

  /** The query being typed, the cursor offset into it, and whether key
      presses are currently routed to the box. */
  datatype SearchBox = SearchBox(query: string, cursor: nat, active: bool)

  /** The invariant every operation keeps: the cursor sits at the end of the
      query, because characters are only ever added or removed there. */
  predicate Valid(sb: SearchBox)
  {
    sb.cursor == |sb.query|
  }

  /** Editing at the cursor is defined only when the cursor is inside the
      query; outside it the program panics. */
  predicate CursorFits(sb: SearchBox)
  {
    sb.cursor <= |sb.query|
  }

  /** A fresh box: empty, cursor at 0, inactive. */
  function New(): (sb: SearchBox)
    ensures sb.query == [] && sb.cursor == 0 && !sb.active
    ensures Valid(sb)
  {
    SearchBox([], 0, false)
  }

  /** Routes key presses to the box; the query is kept. */
  function Activate(sb: SearchBox): (r: SearchBox)
    ensures r.active
    ensures r.query == sb.query && r.cursor == sb.cursor
  {
    sb.(active := true)
  }

  /** Stops routing key presses to the box; the query is kept. */
  function Deactivate(sb: SearchBox): (r: SearchBox)
    ensures !r.active
    ensures r.query == sb.query && r.cursor == sb.cursor
  {
    sb.(active := false)
  }

  /** Empties the query. The activation flag is left as it was. */
  function Clear(sb: SearchBox): (r: SearchBox)
    ensures r.query == [] && r.cursor == 0
    ensures r.active == sb.active
    ensures Valid(r)
  {
    sb.(query := [], cursor := 0)
  }

  /** Types `c` at the cursor when the box is active; otherwise nothing. */
  function HandleChar(sb: SearchBox, c: char): (r: SearchBox)
    requires sb.active ==> CursorFits(sb)
    ensures !sb.active ==> r == sb
    ensures sb.active ==>
      && r.active
      && |r.query| == |sb.query| + 1
      && r.cursor == sb.cursor + 1
      && r.query[sb.cursor] == c
      && r.query[..sb.cursor] == sb.query[..sb.cursor]
      && r.query[sb.cursor + 1..] == sb.query[sb.cursor..]
    ensures Valid(sb) ==> Valid(r)
  {
    if sb.active then
      sb.(query := InsertAt(sb.query, sb.cursor, c), cursor := sb.cursor + 1)
    else
      sb
  }

  /** Deletes the character before the cursor when the box is active and the
      cursor is not at the start; otherwise nothing. */
  function HandleBackspace(sb: SearchBox): (r: SearchBox)
    requires sb.active && sb.cursor > 0 ==> CursorFits(sb)
    ensures !sb.active || sb.cursor == 0 ==> r == sb
    ensures sb.active && sb.cursor > 0 ==>
      && r.active
      && |r.query| == |sb.query| - 1
      && r.cursor == sb.cursor - 1
      && r.query[..sb.cursor - 1] == sb.query[..sb.cursor - 1]
      && r.query[sb.cursor - 1..] == sb.query[sb.cursor..]
    ensures Valid(sb) ==> Valid(r)
  {
    if sb.active && sb.cursor > 0 then
      sb.(query := RemoveAt(sb.query, sb.cursor - 1), cursor := sb.cursor - 1)
    else
      sb
  }

  /** Erasing what was just typed restores the box. */
  lemma BackspaceUndoesChar(sb: SearchBox, c: char)
    requires sb.active && CursorFits(sb)
    ensures HandleBackspace(HandleChar(sb, c)) == sb
  {
    RemoveInsert(sb.query, sb.cursor, c);
  }

  /** The scan the matcher performs: walk `t` once, and for each character of
      `q` in turn skip forward to its next occurrence, consuming it. */
  function GreedyScan(q: string, t: string): bool
    decreases |t|
  {
    if q == [] then true
    else if t == [] then false
    else if t[0] == q[0] then GreedyScan(q[1..], t[1..])
    else GreedyScan(q, t[1..])
  }

  /** Every position in `idx` moved by `d`. */
  function Shift(idx: seq<int>, d: int): (r: seq<int>)
    ensures |r| == |idx|
    ensures forall i :: 0 <= i < |idx| ==> r[i] == idx[i] + d
  {
    seq(|idx|, i requires 0 <= i < |idx| => idx[i] + d)
  }

  /** A match of `q[1..]` in `t[1..]` extends by the shared first character. */
  lemma EmbedCons(idx: seq<int>, q: string, t: string)
    requires q != [] && t != [] && t[0] == q[0]
    requires Embeds(idx, q[1..], t[1..])
    ensures Embeds([0] + Shift(idx, 1), q, t)
  {
    var r := [0] + Shift(idx, 1);
    forall i | 0 < i < |r|
      ensures 0 < r[i] < |t| && t[r[i]] == q[i]
    {
      assert r[i] == idx[i - 1] + 1;
      assert t[1..][idx[i - 1]] == q[1..][i - 1];
    }
  }

  /** A match of `q` in `t[1..]` is a match in `t`, one position later. */
  lemma EmbedSkip(idx: seq<int>, q: string, t: string)
    requires t != []
    requires Embeds(idx, q, t[1..])
    ensures Embeds(Shift(idx, 1), q, t)
  {
    var r := Shift(idx, 1);
    forall i | 0 <= i < |r|
      ensures 0 <= r[i] < |t| && t[r[i]] == q[i]
    {
      assert t[1..][idx[i]] == q[i];
    }
  }

  /** Dropping the first character of both sides of a match leaves a match
      of the rest in the rest. */
  lemma EmbedTail(idx: seq<int>, q: string, t: string)
    requires q != [] && t != []
    requires Embeds(idx, q, t)
    ensures Embeds(Shift(idx[1..], -1), q[1..], t[1..])
  {
    var r := Shift(idx[1..], -1);
    forall i | 0 <= i < |r|
      ensures 0 <= r[i] < |t| - 1 && t[1..][r[i]] == q[1..][i]
    {
      assert idx[0] < idx[i + 1];
    }
  }

  /** A match that does not use `t[0]` is a match in `t[1..]`. */
  lemma EmbedDrop(idx: seq<int>, q: string, t: string)
    requires q != [] && t != [] && t[0] != q[0]
    requires Embeds(idx, q, t)
    ensures Embeds(Shift(idx, -1), q, t[1..])
  {
    var r := Shift(idx, -1);
    forall i | 0 <= i < |r|
      ensures 0 <= r[i] < |t| - 1 && t[1..][r[i]] == q[i]
    {
      assert idx[0] != 0;
      assert idx[0] <= idx[i];
    }
  }

  /** The greedy scan succeeds exactly when `q` is a subsequence of `t`:
      taking the earliest occurrence of each character never loses a match. */
  lemma {:induction false} GreedyScanIsSubsequence(q: string, t: string)
    ensures GreedyScan(q, t) <==> IsSubsequence(q, t)
    decreases |t|
  {
    if q == [] {
      assert Embeds([], q, t);
    } else if t == [] {
      forall idx: seq<int>
        ensures !Embeds(idx, q, t)
      {
        if |idx| == |q| {
          assert !(0 <= idx[0] < |t|);
        }
      }
    } else if t[0] == q[0] {
      GreedyScanIsSubsequence(q[1..], t[1..]);
      if GreedyScan(q, t) {
        var idx :| Embeds(idx, q[1..], t[1..]);
        EmbedCons(idx, q, t);
      }
      if IsSubsequence(q, t) {
        var idx :| Embeds(idx, q, t);
        EmbedTail(idx, q, t);
      }
    } else {
      GreedyScanIsSubsequence(q, t[1..]);
      if GreedyScan(q, t) {
        var idx :| Embeds(idx, q, t[1..]);
        EmbedSkip(idx, q, t);
      }
      if IsSubsequence(q, t) {
        var idx :| Embeds(idx, q, t);
        EmbedDrop(idx, q, t);
      }
    }
  }

  /** Whether `text` matches `query`: always for an empty query, otherwise
      exactly when the folded query is a subsequence of the folded text. */
  function Matches(query: string, text: string): (r: bool)
    ensures query == [] ==> r
    ensures query != [] ==> (r <==> IsSubsequence(LowerStr(query), LowerStr(text)))
  {
    if query == [] then true
    else
      GreedyScanIsSubsequence(LowerStr(query), LowerStr(text));
      GreedyScan(LowerStr(query), LowerStr(text))
  }

  const ExactScore: int := 1000
  const PrefixScore: int := 500
  const SubstringScore: int := 100
  const FuzzyBonus: int := 10

  /** The ranking score of `text` for `query`: 0 for an empty query;
      otherwise a tier for exact, prefix or substring equality of the folded
      texts (checked in that order), plus a bonus whenever `Matches` holds. */
  function MatchScore(query: string, text: string): (r: int)
    ensures r in {0, 10, 110, 510, 1010}
    ensures query == [] ==> r == 0
    ensures query != [] ==> (r >= FuzzyBonus <==> Matches(query, text))
  {
    if query == [] then 0
    else
      var t := LowerStr(text);
      var q := LowerStr(query);
      var tier :=
        if t == q then ExactScore
        else if IsPrefix(q, t) then PrefixScore
        else if Contains(t, q) then SubstringScore
        else 0;
      TierImpliesMatch(query, text);
      tier + (if Matches(query, text) then FuzzyBonus else 0)
  }

  /** A contiguous occurrence of the folded query is also a subsequence
      match, so every non-zero tier comes with the bonus. */
  lemma TierImpliesMatch(query: string, text: string)
    requires query != []
    ensures Contains(LowerStr(text), LowerStr(query)) ==> Matches(query, text)
    ensures IsPrefix(LowerStr(query), LowerStr(text)) ==> Matches(query, text)
  {
    var t := LowerStr(text);
    var q := LowerStr(query);
    if Contains(t, q) {
      var k :| OccursAt(t, q, k);
      OccurrenceIsSubsequence(t, q, k);
    }
    if IsPrefix(q, t) {
      PrefixIsOccurrence(q, t);
      OccurrenceIsSubsequence(t, q, 0);
    }
  }

  /** Each score value stands for exactly one kind of match. */
  lemma ScoreTiers(query: string, text: string)
    requires query != []
    ensures var r := MatchScore(query, text);
            var q := LowerStr(query);
            var t := LowerStr(text);
            && (r == 1010 <==> t == q)
            && (r == 510 <==> t != q && IsPrefix(q, t))
            && (r == 110 <==> !IsPrefix(q, t) && exists k :: OccursAt(t, q, k))
            && (r == 10 <==> (forall k :: !OccursAt(t, q, k)) && IsSubsequence(q, t))
            && (r == 0 <==> !IsSubsequence(q, t))
  {
    var q := LowerStr(query);
    var t := LowerStr(text);
    TierImpliesMatch(query, text);
    if t == q {
      assert IsPrefix(q, t);
    }
    if IsPrefix(q, t) {
      PrefixIsOccurrence(q, t);
    }
  }

  /** Matching ignores the letter case of both sides. */
  lemma MatchesIgnoresCase(query: string, text: string)
    ensures Matches(LowerStr(query), LowerStr(text)) == Matches(query, text)
  {
    LowerStrIdempotent(query);
    LowerStrIdempotent(text);
  }

  /** A concrete choice of positions in the folded text proves a match. */
  lemma MatchByWitness(query: string, text: string, idx: seq<int>)
    requires query != [] && Embeds(idx, LowerStr(query), LowerStr(text))
    ensures Matches(query, text)
  {
  }

  // The examples below take the query and the text as parameters that a
  // `requires` pins to the literals, instead of writing the literals in the
  // `ensures`. With literals there, the verifier unfolds the recursive
  // definitions (`Embeds`, `LowerStr`, `Contains`) character by character and
  // the proofs grow several times larger; with parameters each proof supplies
  // its own witness and the definitions stay folded. `FuzzyMatchExamples` and
  // `MatchScoreExamples` then restate the unit tests on the literals.

  /** The mixed-case example of the matcher's unit test. */
  lemma MatchesWarehouseTestJob(query: string, text: string)
    requires query == "wrhs" && text == "Warehouse Test Job"
    ensures Matches(query, text)
  {
    LowerStrFixed(query);
    var t := LowerStr(text);
    assert Lower('W') == 'w';
    assert t[0] == Lower(text[0]) && text[0] == 'W';
    assert t[2] == text[2] == 'r' && t[4] == text[4] == 'h' && t[7] == text[7] == 's';
    assert Embeds([0, 2, 4, 7], query, t);
    MatchByWitness(query, text, [0, 2, 4, 7]);
  }

  lemma MatchesWarehouse(query: string, text: string)
    requires query == "wrhs" && text == "warehouse"
    ensures Matches(query, text)
  {
    LowerStrFixed(query);
    LowerStrFixed(text);
    MatchByWitness(query, text, [0, 2, 4, 7]);
  }

  /** "robot arm" has no `w`, so the scan fails at once. */
  lemma RejectsRobotArm(query: string, text: string)
    requires query == "wrhs" && text == "robot arm"
    ensures !Matches(query, text)
  {
    LowerStrFixed(query);
    LowerStrFixed(text);
    MissingCharRejects(query, text, 0);
  }

  /** The matcher's unit test: "wrhs" picks out the two warehouse names and
      not the robot arm. */
  lemma FuzzyMatchExamples()
    ensures Matches("wrhs", "warehouse")
    ensures Matches("wrhs", "Warehouse Test Job")
    ensures !Matches("wrhs", "robot arm")
  {
    MatchesWarehouse("wrhs", "warehouse");
    MatchesWarehouseTestJob("wrhs", "Warehouse Test Job");
    RejectsRobotArm("wrhs", "robot arm");
  }

  lemma ExactScoreExample(query: string, text: string)
    requires query == "test" && text == "test"
    ensures MatchScore(query, text) == 1010
  {
    LowerStrFixed(query);
    TierImpliesMatch(query, text);
  }

  lemma PrefixScoreExample(query: string, text: string)
    requires query == "test" && (text == "testing" || text == "test job")
    ensures MatchScore(query, text) == 510
  {
    LowerStrFixed(query);
    LowerStrFixed(text);
    assert text[..4] == query;
    TierImpliesMatch(query, text);
  }

  lemma SubstringScoreExample(query: string, text: string)
    requires query == "test" && text == "my test"
    ensures MatchScore(query, text) == 110
  {
    LowerStrFixed(query);
    LowerStrFixed(text);
    assert text[0] != query[0];
    assert OccursAt(text, query, 3) by {
      assert text[3..7] == query;
    }
    TierImpliesMatch(query, text);
  }

  /** The scorer's unit test: an exact match outranks a prefix match, which
      outranks a substring match. */
  lemma MatchScoreExamples()
    ensures MatchScore("test", "test") > MatchScore("test", "testing")
    ensures MatchScore("test", "test job") > MatchScore("test", "my test")
  {
    ExactScoreExample("test", "test");
    PrefixScoreExample("test", "testing");
    PrefixScoreExample("test", "test job");
    SubstringScoreExample("test", "my test");
  }

  /** "the best" never holds "test" in a row. */
  lemma NoRunOfTest(query: string, text: string)
    requires query == "test" && text == "the best"
    ensures !Contains(text, query)
  {
    forall k | 0 <= k && k + 4 <= |text|
      ensures !OccursAt(text, query, k)
    {
      assert text[k..k + 4][0] == text[k];
      assert text[k..k + 4][1] == text[k + 1];
    }
  }

  /** A scattered match earns only the bonus: "the best" holds t, e, s, t in
      order but never "test" in a row. */
  lemma BonusOnlyExample(query: string, text: string)
    requires query == "test" && text == "the best"
    ensures MatchScore(query, text) == 10
  {
    LowerStrFixed(query);
    LowerStrFixed(text);
    assert text[1] != query[1];
    NoRunOfTest(query, text);
    assert Embeds([0, 2, 6, 7], query, text);
    MatchByWitness(query, text, [0, 2, 6, 7]);
  }

  /** No match earns nothing: "robot" has no `e`. */
  lemma NoMatchExample(query: string, text: string)
    requires query == "test" && text == "robot"
    ensures MatchScore(query, text) == 0
  {
    LowerStrFixed(query);
    LowerStrFixed(text);
    assert text[0] != query[0];
    forall k | 0 <= k && k + 4 <= |text|
      ensures !OccursAt(text, query, k)
    {
      assert text[k..k + 4][0] == text[k];
    }
    MissingCharRejects(query, text, 1);
  }
}
