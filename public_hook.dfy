/**
 * The public game hook as an object: its state fields are updated in place by one method per
 * server event, fetch completion and connectivity signal, and by the reaction methods the
 * component runs after `game`, `gameState` or `buzzerIdBuzzing` changed.
 */
module PublicHook {
  import opened Wrappers
  import opened GameTypes
  import Roster
  import opened Reconciler

  class NeonBeatPublic {
    var isServerReady: bool
    var game: Option<string>
    var teams: Option<seq<Team>>
    var song: Option<Song>
    var gameState: Option<string>
    var teamPairingWaiting: Option<string>
    var pointFieldsFound: Option<seq<string>>
    var bonusFieldsFound: Option<seq<string>>
    var buzzerIdBuzzing: Option<string>
    var teamIdBuzzing: Option<TeamId>

    /** The fields as one value. */
    function Snapshot(): Reconciler.Snapshot
      reads this
    {
      Reconciler.Snapshot(isServerReady, game, teams, song, gameState, teamPairingWaiting,
                          pointFieldsFound, bonusFieldsFound, buzzerIdBuzzing, teamIdBuzzing)
    }

    constructor ()
      ensures Snapshot() == Initial
    {
      isServerReady := false;
      game := None;
      teams := None;
      song := None;
      gameState := None;
      teamPairingWaiting := None;
      pointFieldsFound := Some([]);
      bonusFieldsFound := Some([]);
      buzzerIdBuzzing := None;
      teamIdBuzzing := None;
    }

    method OnPhaseChanged(p: Payload<PhaseChange>)
      modifies this
      ensures Snapshot() == Reconciler.OnPhaseChanged(old(Snapshot()), p)
    {
      if p.Parsed? {
        var c := p.data;
        if c.phase == WireName(Playing) && gameState == Some(WireName(Reveal)) {
          pointFieldsFound := Some([]);
          bonusFieldsFound := Some([]);
        }
        gameState := Some(c.phase);
        if c.song.Some? {
          song := c.song;
        }
        if c.phase == WireName(Paused) && Truthy(c.pausedBuzzer) {
          buzzerIdBuzzing := c.pausedBuzzer;
        }
      }
    }

    method OnFieldsFound(p: Payload<FoundFields>)
      modifies this
      ensures Snapshot() == Reconciler.OnFieldsFound(old(Snapshot()), p)
    {
      if p.Parsed? {
        pointFieldsFound := p.data.pointFields;
        bonusFieldsFound := p.data.bonusFields;
      }
    }

    method OnAnswerValidation(p: Payload<string>) returns (audio: AudioIntent)
      modifies this
      ensures (Snapshot(), audio) == Reconciler.OnAnswerValidation(old(Snapshot()), p)
    {
      audio := NoSound;
      if p.Parsed? {
        if p.data == "wrong" {
          audio := WrongSound;
        } else if p.data == "correct" {
          audio := CorrectSound;
        }
      }
      teamIdBuzzing := None;
      buzzerIdBuzzing := None;
    }

    method OnScoreAdjustment(p: Payload<ScoreChange>)
      modifies this
      ensures Snapshot() == Reconciler.OnScoreAdjustment(old(Snapshot()), p)
    {
      if p.Parsed? && teams.Some? {
        teams := Some(Roster.AdjustScore(teams.value, p.data.id, p.data.score));
      }
    }

    method OnPairingWaiting(p: Payload<string>)
      modifies this
      ensures Snapshot() == Reconciler.OnPairingWaiting(old(Snapshot()), p)
    {
      if p.Parsed? {
        teamPairingWaiting := Some(p.data);
      }
    }

    method OnPairingAssigned(p: Payload<Assignment>)
      modifies this
      ensures Snapshot() == Reconciler.OnPairingAssigned(old(Snapshot()), p)
    {
      if p.Parsed? {
        if teams.Some? {
          teams := Some(Roster.AssignBuzzer(teams.value, p.data.teamId, p.data.buzzerId));
        }
        teamPairingWaiting := None;
      }
    }

    method OnPairingRestored(p: Payload<Option<seq<Team>>>)
      modifies this
      ensures Snapshot() == Reconciler.OnPairingRestored(old(Snapshot()), p)
    {
      if p.Parsed? {
        teamPairingWaiting := None;
        teams := p.data;
      }
    }

    method OnChannelOpen()
      modifies this
      ensures Snapshot() == old(Snapshot()).(isServerReady := true)
    {
      isServerReady := true;
    }

    method OnChannelError()
      modifies this
      ensures Snapshot() == old(Snapshot()).(isServerReady := false)
    {
      isServerReady := false;
    }

    method OnPhaseLoaded(phase: Option<string>, gameId: Option<string>)
      modifies this
      ensures Snapshot() == Reconciler.OnPhaseLoaded(old(Snapshot()), phase, gameId)
    {
      gameState := phase;
      if Truthy(gameId) {
        game := gameId;
      }
    }

    method OnTeamsLoaded(loaded: Option<seq<Team>>)
      modifies this
      ensures Snapshot() == old(Snapshot()).(teams := loaded)
    {
      teams := loaded;
    }

    method OnSongLoaded(loaded: Option<Song>)
      modifies this
      ensures Snapshot() == old(Snapshot()).(song := loaded)
    {
      song := loaded;
    }

    /** Runs after `gameState` changed; answers whether the roster is to be re-read. */
    method PhaseReaction() returns (fetchTeams: bool)
      modifies this
      ensures (Snapshot(), fetchTeams) == Reconciler.PhaseReaction(old(Snapshot()))
    {
      fetchTeams := false;
      if Truthy(gameState) {
        if gameState == Some(WireName(Idle)) || gameState == Some(WireName(PrepReady))
           || gameState == Some(WireName(Scores)) {
          pointFieldsFound := Some([]);
          bonusFieldsFound := Some([]);
          song := None;
          teams := None;
        }
        if gameState == Some(WireName(Reveal)) {
          teamIdBuzzing := None;
          buzzerIdBuzzing := None;
        }
        fetchTeams := gameState != Some(WireName(PrepReady));
      }
    }

    /** Runs after `buzzerIdBuzzing` changed. */
    method BuzzerReaction()
      modifies this
      ensures Snapshot() == Reconciler.BuzzerReaction(old(Snapshot()))
    {
      if Truthy(buzzerIdBuzzing) && teams.Some? {
        var found := Roster.FindByBuzzer(teams.value, buzzerIdBuzzing.value);
        if found.Some? {
          teamIdBuzzing := Some(teams.value[found.value].id);
        }
      }
    }

    /** Runs after `game` changed; answers whether roster and song are to be read. */
    method GameReaction() returns (fetch: bool)
      ensures fetch == Reconciler.GameReaction(Snapshot())
    {
      fetch := Truthy(game);
    }

    /** Delivers one event to its listener, then runs the reactions its changes trigger. */
    method Dispatch(e: Event) returns (fx: Effects)
      modifies this
      ensures (Snapshot(), fx) == Step(old(Snapshot()), e)
    {
      var before := Snapshot();
      fx := NoEffects;
      match e {
        case PhaseChanged(p) => OnPhaseChanged(p);
        case FieldsFound(p) => OnFieldsFound(p);
        case AnswerValidation(p) =>
          var audio := OnAnswerValidation(p);
          fx := fx.(audio := audio);
        case ScoreAdjustment(p) => OnScoreAdjustment(p);
        case PairingWaiting(p) => OnPairingWaiting(p);
        case PairingAssigned(p) => OnPairingAssigned(p);
        case PairingRestored(p) => OnPairingRestored(p);
        case TeamNotice => fx := fx.(fetchTeams := true);
        case ChannelOpened => OnChannelOpen();
        case ChannelFailed => OnChannelError();
        case PhaseLoaded(ph, gid) => OnPhaseLoaded(ph, gid);
        case TeamsLoaded(ts) => OnTeamsLoaded(ts);
        case SongLoaded(sg) => OnSongLoaded(sg);
        case Unrecognised(_) =>
      }
      assert (Snapshot(), fx) == Handle(before, e);
      if game != before.game {
        var fetch := GameReaction();
        fx := fx.(fetchTeams := fx.fetchTeams || fetch, fetchSong := fx.fetchSong || fetch);
      }
      if gameState != before.gameState {
        var fetch := PhaseReaction();
        fx := fx.(fetchTeams := fx.fetchTeams || fetch);
      }
      if buzzerIdBuzzing != before.buzzerIdBuzzing {
        BuzzerReaction();
      }
    }
  }
}
