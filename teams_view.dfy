/** The team strip: a placeholder for no teams, otherwise one tile per team in roster order. */
module TeamsView {
  import opened Wrappers
  import opened GameTypes

  /** A tile from the caller's own renderer, or the standard tile with its two flags. */
  datatype TileSlot = Custom(team: Team) | Standard(team: Team, isBuzzing: bool, isPairing: bool)

  datatype Strip = NoTeams | Tiles(tiles: seq<TileSlot>)

  /** `teamBuzzing === team.id`. */
  predicate IsBuzzing(teamBuzzing: Option<TeamId>, team: Team)
  {
    teamBuzzing == Some(team.id)
  }

  /** `currentTeamPairing === team.id`: only a string id can equal the pairing team's string. */
  predicate IsPairing(currentTeamPairing: Option<string>, team: Team)
  {
    currentTeamPairing.Some? && team.id == StrId(currentTeamPairing.value)
  }

  function RenderTeams(teams: Option<seq<Team>>, customRenderer: bool,
                       teamBuzzing: Option<TeamId>, currentTeamPairing: Option<string>): (v: Strip)
    ensures v.NoTeams? <==> teams.None? || |teams.value| == 0
    ensures v.Tiles? ==> |v.tiles| == |teams.value|
    ensures v.Tiles? ==> forall i :: 0 <= i < |v.tiles| ==>
      && v.tiles[i].team == teams.value[i]
      && (v.tiles[i].Custom? <==> customRenderer)
      && (v.tiles[i].Standard? ==>
            && (v.tiles[i].isBuzzing <==> IsBuzzing(teamBuzzing, teams.value[i]))
            && (v.tiles[i].isPairing <==> IsPairing(currentTeamPairing, teams.value[i])))
  {
    if teams.None? || |teams.value| == 0 then NoTeams
    else
      var ts := teams.value;
      Tiles(seq(|ts|, i requires 0 <= i < |ts| =>
        if customRenderer then Custom(ts[i])
        else Standard(ts[i], IsBuzzing(teamBuzzing, ts[i]), IsPairing(currentTeamPairing, ts[i]))))
  }

  predicate DistinctIds(teams: seq<Team>)
  {
    forall i, j :: 0 <= i < j < |teams| ==> teams[i].id != teams[j].id
  }

  /** With distinct ids, at most one tile is buzzing and at most one is pairing. */
  lemma AtMostOneHighlighted(teams: seq<Team>, teamBuzzing: Option<TeamId>, currentTeamPairing: Option<string>, i: nat, j: nat)
    requires DistinctIds(teams)
    requires i < |teams| && j < |teams|
    ensures var v := RenderTeams(Some(teams), false, teamBuzzing, currentTeamPairing);
      && (v.tiles[i].isBuzzing && v.tiles[j].isBuzzing ==> i == j)
      && (v.tiles[i].isPairing && v.tiles[j].isPairing ==> i == j)
  {
    var lo, hi := if i < j then i else j, if i < j then j else i;
    assert lo != hi ==> teams[lo].id != teams[hi].id;
  }
}
