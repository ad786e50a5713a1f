/**
 * The final-score screen: the teams sorted by score, highest first and stable among equal
 * scores (as `Array.prototype.sort` is required to be by ECMA-262, 10th edition, section
 * 22.1.3.27), three medal places and a numbered list of the rest.
 */
module ScoresView {
  import opened Wrappers
  import opened GameTypes
  import Text

  predicate NonIncreasing(s: seq<Team>)
  {
    forall i, j :: 0 <= i < j < |s| ==> s[i].score >= s[j].score
  }

  /** Every team of `s` scores at most `k`. */
  predicate AtMost(s: seq<Team>, k: int)
  {
    forall i :: 0 <= i < |s| ==> s[i].score <= k
  }

  /** Places `t` before the first team whose score is not higher, so it precedes the equal ones. */
  function InsertByScore(t: Team, sorted: seq<Team>): (r: seq<Team>)
    ensures multiset(r) == multiset(sorted) + multiset{t}
  {
    if |sorted| == 0 || sorted[0].score <= t.score then [t] + sorted
    else
      assert sorted == [sorted[0]] + sorted[1..];
      [sorted[0]] + InsertByScore(t, sorted[1..])
  }

  lemma {:induction false} InsertAtMost(t: Team, sorted: seq<Team>, k: int)
    requires AtMost(sorted, k) && t.score <= k
    ensures AtMost(InsertByScore(t, sorted), k)
  {
    if |sorted| > 0 && sorted[0].score > t.score {
      InsertAtMost(t, sorted[1..], k);
    }
  }

  lemma {:induction false} InsertKeepsOrder(t: Team, sorted: seq<Team>)
    requires NonIncreasing(sorted)
    ensures NonIncreasing(InsertByScore(t, sorted))
  {
    if |sorted| > 0 && sorted[0].score > t.score {
      InsertKeepsOrder(t, sorted[1..]);
      InsertAtMost(t, sorted[1..], sorted[0].score);
    }
  }

  /** `[...teams].sort((a, b) => b.score - a.score)`: a sorted copy, the input left as it is. */
  function SortByScore(teams: seq<Team>): (r: seq<Team>)
    ensures multiset(r) == multiset(teams)
    ensures NonIncreasing(r)
  {
    if |teams| == 0 then []
    else
      assert teams == [teams[0]] + teams[1..];
      InsertKeepsOrder(teams[0], SortByScore(teams[1..]));
      InsertByScore(teams[0], SortByScore(teams[1..]))
  }

  /** The teams with score `k`, in order. */
  function WithScore(s: seq<Team>, k: int): seq<Team>
  {
    if |s| == 0 then [] else (if s[0].score == k then [s[0]] else []) + WithScore(s[1..], k)
  }

  lemma WithScoreCons(x: Team, s: seq<Team>, k: int)
    ensures WithScore([x] + s, k) == (if x.score == k then [x] else []) + WithScore(s, k)
  {
    assert ([x] + s)[0] == x;
    assert ([x] + s)[1..] == s;
  }

  lemma {:induction false} WithScoreOfInsert(t: Team, sorted: seq<Team>, k: int)
    ensures WithScore(InsertByScore(t, sorted), k) ==
      (if t.score == k then [t] else []) + WithScore(sorted, k)
  {
    if |sorted| == 0 || sorted[0].score <= t.score {
      WithScoreCons(t, sorted, k);
    } else {
      // sorted[0] outscores t, so at most one of the two has score k
      var rest := InsertByScore(t, sorted[1..]);
      WithScoreCons(sorted[0], rest, k);
      WithScoreOfInsert(t, sorted[1..], k);
      assert sorted == [sorted[0]] + sorted[1..];
      WithScoreCons(sorted[0], sorted[1..], k);
    }
  }

  /** Teams with equal scores keep their input order. */
  lemma {:induction false} SortIsStable(teams: seq<Team>, k: int)
    ensures WithScore(SortByScore(teams), k) == WithScore(teams, k)
  {
    if |teams| > 0 {
      WithScoreOfInsert(teams[0], SortByScore(teams[1..]), k);
      SortIsStable(teams[1..], k);
    }
  }

  /** The score suffix: "pt" for exactly one point, "pts" otherwise. */
  function PointsSuffix(score: int): (s: string)
    ensures s == "pt" <==> score == 1
    ensures s == "pts" <==> score != 1
  {
    if score != 1 then "pts" else "pt"
  }

  /** The score line under a name: the score, a space, then the suffix. */
  function PointsLabel(score: int): string
  {
    Text.IntToString(score) + " " + PointsSuffix(score)
  }

  /** Different scores never share a score line. */
  lemma PointsLabelShowsScore(a: int, b: int)
    requires PointsLabel(a) == PointsLabel(b)
    ensures a == b
  {
    Text.IntToStringHasNoSpace(a);
    Text.IntToStringHasNoSpace(b);
    Text.SpaceEndsWord(Text.IntToString(a), Text.IntToString(b), PointsSuffix(a), PointsSuffix(b));
    Text.IntToStringInjective(a, b);
  }

  /** A team below the podium, with its displayed rank. */
  datatype Ranked = Ranked(rank: nat, team: Team)

  datatype Board = Board(silver: Option<Team>, gold: Option<Team>, bronze: Option<Team>, rest: seq<Ranked>)

  function Place(sorted: seq<Team>, i: nat): (p: Option<Team>)
    ensures p.Some? <==> i < |sorted|
    ensures p.Some? ==> p.value == sorted[i]
  {
    if i < |sorted| then Some(sorted[i]) else None
  }

  /** The board for an already sorted roster. */
  function Arrange(sorted: seq<Team>): (b: Board)
    ensures b.gold == Place(sorted, 0) && b.silver == Place(sorted, 1) && b.bronze == Place(sorted, 2)
    ensures |b.rest| == (if |sorted| > 3 then |sorted| - 3 else 0)
    ensures forall i :: 0 <= i < |b.rest| ==> b.rest[i] == Ranked(i + 4, sorted[i + 3])
  {
    var rest := if |sorted| > 3 then sorted[3..] else [];
    Board(Place(sorted, 1), Place(sorted, 0), Place(sorted, 2),
          seq(|rest|, i requires 0 <= i < |rest| => Ranked(i + 4, rest[i])))
  }

  /** The podium shows places 1 to 3 where they exist; everyone after is listed with rank index + 4. */
  function RenderScores(teams: seq<Team>): Board
  {
    Arrange(SortByScore(teams))
  }

  /** The gold team scored at least as much as any team; silver at least as much as bronze and everyone listed. */
  lemma PodiumHoldsTopScores(teams: seq<Team>, t: Team)
    requires t in teams
    ensures var b := RenderScores(teams);
      && b.gold.Some? && b.gold.value.score >= t.score
      && (b.silver.Some? && b.bronze.Some? ==> b.silver.value.score >= b.bronze.value.score)
      && (forall i :: 0 <= i < |b.rest| ==> b.bronze.Some? && b.bronze.value.score >= b.rest[i].team.score)
  {
    var sorted := SortByScore(teams);
    assert t in multiset(teams);
    assert t in sorted;
    var k :| 0 <= k < |sorted| && sorted[k] == t;
    assert sorted[0].score >= sorted[k].score || k == 0;
  }

  function OptionToSeq(p: Option<Team>): seq<Team>
  {
    if p.Some? then [p.value] else []
  }

  /** The teams on the board in rank order: gold, silver, bronze, then the list. */
  function ShownInRankOrder(b: Board): seq<Team>
  {
    OptionToSeq(b.gold) + OptionToSeq(b.silver) + OptionToSeq(b.bronze) + Listed(b)
  }

  /** The teams listed below the podium, in order. */
  function Listed(b: Board): seq<Team>
  {
    seq(|b.rest|, i requires 0 <= i < |b.rest| => b.rest[i].team)
  }

  lemma ListedIsTail(sorted: seq<Team>)
    requires |sorted| > 3
    ensures Listed(Arrange(sorted)) == sorted[3..]
  {
    var b := Arrange(sorted);
    forall i | 0 <= i < |b.rest|
      ensures Listed(b)[i] == sorted[3..][i]
    {
      assert b.rest[i].team == sorted[i + 3];
    }
  }

  lemma ArrangeShowsAll(sorted: seq<Team>)
    ensures ShownInRankOrder(Arrange(sorted)) == sorted
  {
    var b := Arrange(sorted);
    var podium := OptionToSeq(b.gold) + OptionToSeq(b.silver) + OptionToSeq(b.bronze);
    if |sorted| == 0 {
      assert podium == [];
    } else if |sorted| == 1 {
      assert podium == sorted;
    } else if |sorted| == 2 {
      assert podium == sorted;
    } else if |sorted| == 3 {
      assert podium == sorted;
    } else {
      assert podium == sorted[..3];
      ListedIsTail(sorted);
      assert sorted == sorted[..3] + sorted[3..];
    }
  }

  /** The score lines of the board in rank order: each shown team's score followed by "pt" or "pts". */
  function ScoreLines(b: Board): (lines: seq<string>)
    ensures |lines| == |ShownInRankOrder(b)|
  {
    var shown := ShownInRankOrder(b);
    seq(|shown|, i requires 0 <= i < |shown| => PointsLabel(shown[i].score))
  }

  /** On the final board the line in place `i` is the score line of the `i`-th ranked team, and two lines read
      alike exactly when their teams scored the same. */
  lemma ScoreLinesFollowRanking(teams: seq<Team>, i: nat, j: nat)
    requires i < |teams| && j < |teams|
    ensures var lines := ScoreLines(RenderScores(teams));
      var sorted := SortByScore(teams);
      && |lines| == |teams|
      && lines[i] == PointsLabel(sorted[i].score)
      && (lines[i] == lines[j] <==> sorted[i].score == sorted[j].score)
  {
    var lines := ScoreLines(RenderScores(teams));
    var sorted := SortByScore(teams);
    EveryTeamShownOnce(teams);
    assert |sorted| == |multiset(sorted)| == |multiset(teams)| == |teams|;
    if lines[i] == lines[j] {
      PointsLabelShowsScore(sorted[i].score, sorted[j].score);
    }
  }

  /** Read in rank order, the board is exactly the sorted roster: every team appears once. */
  lemma EveryTeamShownOnce(teams: seq<Team>)
    ensures ShownInRankOrder(RenderScores(teams)) == SortByScore(teams)
    ensures multiset(ShownInRankOrder(RenderScores(teams))) == multiset(teams)
  {
    ArrangeShowsAll(SortByScore(teams));
  }
}
