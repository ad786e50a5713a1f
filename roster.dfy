/** The pure roster updates and the buzzer lookup the public hook applies to its team list. */
module Roster {
  import opened Wrappers
  import opened GameTypes

  /** score_adjustment: every team whose id is strictly equal (`===`) to `id` takes `score`. */
  function AdjustScore(teams: seq<Team>, id: TeamId, score: int): (r: seq<Team>)
    ensures |r| == |teams|
    ensures forall i :: 0 <= i < |r| ==> r[i].(score := teams[i].score) == teams[i]
    ensures forall i :: 0 <= i < |r| ==> r[i].score == if teams[i].id == id then score else teams[i].score
  {
    seq(|teams|, i requires 0 <= i < |teams| =>
      if teams[i].id == id then teams[i].(score := score) else teams[i])
  }

  /** pairing.assigned: every team whose `id.toString()` equals `teamId` takes `buzzerId`. */
  function AssignBuzzer(teams: seq<Team>, teamId: string, buzzerId: string): (r: seq<Team>)
    ensures |r| == |teams|
    ensures forall i :: 0 <= i < |r| ==> r[i].(buzzerId := teams[i].buzzerId) == teams[i]
    ensures forall i :: 0 <= i < |r| ==>
      r[i].buzzerId == if teams[i].id.ToString() == teamId then Some(buzzerId) else teams[i].buzzerId
  {
    seq(|teams|, i requires 0 <= i < |teams| =>
      if teams[i].id.ToString() == teamId then teams[i].(buzzerId := Some(buzzerId)) else teams[i])
  }

  /** `teams.find(t => t.buzzer_id === b)`, as the index of the first team holding buzzer `b`. */
  function FindByBuzzer(teams: seq<Team>, b: string): (r: Option<nat>)
    ensures r.Some? ==> r.value < |teams| && teams[r.value].buzzerId == Some(b)
    ensures r.Some? ==> forall j :: 0 <= j < r.value ==> teams[j].buzzerId != Some(b)
    ensures r.None? ==> forall j :: 0 <= j < |teams| ==> teams[j].buzzerId != Some(b)
  {
    if |teams| == 0 then None
    else if teams[0].buzzerId == Some(b) then Some(0)
    else
      match FindByBuzzer(teams[1..], b)
      case None => None
      case Some(k) => Some(k + 1)
  }

  /** A team without a buzzer (absent or null) is never the one found. */
  lemma UnpairedTeamNeverFound(teams: seq<Team>, b: string, i: nat)
    requires i < |teams| && teams[i].buzzerId.None?
    ensures FindByBuzzer(teams, b) != Some(i)
  {
  }

  /** With string ids the `toString()` match of pairing.assigned is plain equality of ids. */
  lemma StringIdsMatchAlike(t: Team, s: string)
    requires t.id.StrId?
    ensures t.id.ToString() == s <==> t.id == StrId(s)
  {
  }

  /** A numeric id equals a payload string under `toString()` exactly when the string is that number's decimal
      rendering, and two numeric ids never render alike; under `===` it never equals a string id. */
  lemma NumericIdMatchesOnlyByString(n: int, m: int, s: string)
    ensures NumId(m).ToString() == NumId(n).ToString() <==> m == n
    ensures NumId(n).ToString() == s && n >= 0 ==> Text.AllDigits(s) && Text.DigitsValue(s) == n
    ensures NumId(n).ToString() == s && n < 0 ==> s[0] == '-' && Text.AllDigits(s[1..]) && Text.DigitsValue(s[1..]) == -n
    ensures NumId(n).ToString() == s && n == 0 ==> s == "0"
    ensures NumId(n).ToString() == s && n > 0 ==> s[0] != '0'
    ensures NumId(n).ToString() == s && n < 0 ==> 2 <= |s| && s[1] != '0'
    ensures NumId(n) != StrId(s)
  {
    if NumId(m).ToString() == NumId(n).ToString() {
      Text.IntToStringInjective(m, n);
    }
  }

  /** For instance, the numeric id 7 is assigned by the payload "7", not by "07", and is not the string id "7". */
  lemma NumericIdSeven()
    ensures NumId(7).ToString() == "7"
    ensures NumId(7).ToString() != "07"
    ensures NumId(7) != StrId("7")
  {
  }
}
