/**
 * The public display's game snapshot and what each server push, each fetch completion and each
 * connectivity signal does to it, as pure functions. The class in PublicHook updates its fields
 * step by step and is proved to follow these functions.
 */
module Reconciler {
  import opened Wrappers
  import opened GameTypes
  import Roster

  /** The local mirror of the server's game (every state field of the hook but the connection handle). */
  datatype Snapshot = Snapshot(
    isServerReady: bool,
    game: Option<string>,
    teams: Option<seq<Team>>,
    song: Option<Song>,
    gameState: Option<string>,
    teamPairingWaiting: Option<string>,
    pointFieldsFound: Option<seq<string>>,
    bonusFieldsFound: Option<seq<string>>,
    buzzerIdBuzzing: Option<string>,
    teamIdBuzzing: Option<TeamId>)

  /** The state before anything has been received. */
  const Initial := Snapshot(false, None, None, None, None, None, Some([]), Some([]), None, None)

  /** The outcome of parsing a push payload; `Unparsable` also covers a parse that yields a falsy value. */
  datatype Payload<+T> = Parsed(data: T) | Unparsable

  datatype PhaseChange = PhaseChange(phase: string, song: Option<Song>, pausedBuzzer: Option<string>)

  /** A fields_found payload; a list the server omits arrives as `None`. */
  datatype FoundFields = FoundFields(songId: int, pointFields: Option<seq<string>>, bonusFields: Option<seq<string>>)

  /** The two members of a score_adjustment payload the handler reads. */
  datatype ScoreChange = ScoreChange(id: TeamId, score: int)

  datatype Assignment = Assignment(teamId: string, buzzerId: string)

  /** The sound the display should play: the core only says which. */
  datatype AudioIntent = NoSound | CorrectSound | WrongSound

  /** Everything that can reach the hook, one at a time. */
  datatype Event =
    | PhaseChanged(change: Payload<PhaseChange>)
    | FieldsFound(found: Payload<FoundFields>)
    | AnswerValidation(verdict: Payload<string>)
    | ScoreAdjustment(adjustment: Payload<ScoreChange>)
    | PairingWaiting(waitingTeam: Payload<string>)
    | PairingAssigned(assignment: Payload<Assignment>)
    | PairingRestored(snapshot: Payload<Option<seq<Team>>>)
    | TeamNotice                                                    // team.created, team.updated, team.deleted
    | ChannelOpened
    | ChannelFailed
    | PhaseLoaded(loadedPhase: Option<string>, loadedGameId: Option<string>)   // GET /public/phase succeeded
    | TeamsLoaded(loadedTeams: Option<seq<Team>>)                   // GET /public/teams succeeded
    | SongLoaded(loadedSong: Option<Song>)                          // GET /public/song succeeded
    | Unrecognised(name: string)                                    // an event type with no listener

  /** What the hook asks of its collaborators after a step: reads to start and a sound to play. */
  datatype Effects = Effects(fetchTeams: bool, fetchSong: bool, audio: AudioIntent)

  const NoEffects := Effects(false, false, NoSound)

  predicate IsPhase(s: Option<string>, p: Phase)
  {
    s == Some(WireName(p))
  }

  // ---- the event handlers ----

  function OnPhaseChanged(s: Snapshot, p: Payload<PhaseChange>): Snapshot
  {
    match p
    case Unparsable => s
    case Parsed(c) =>
      var restart := c.phase == WireName(Playing) && IsPhase(s.gameState, Reveal);
      s.(pointFieldsFound := if restart then Some([]) else s.pointFieldsFound,
         bonusFieldsFound := if restart then Some([]) else s.bonusFieldsFound,
         gameState := Some(c.phase),
         song := if c.song.Some? then c.song else s.song,
         buzzerIdBuzzing := if c.phase == WireName(Paused) && Truthy(c.pausedBuzzer) then c.pausedBuzzer
                            else s.buzzerIdBuzzing)
  }

  function OnFieldsFound(s: Snapshot, p: Payload<FoundFields>): Snapshot
  {
    match p
    case Unparsable => s
    case Parsed(f) => s.(pointFieldsFound := f.pointFields, bonusFieldsFound := f.bonusFields)
  }

  /** The buzz is over whether or not the verdict parsed. */
  function OnAnswerValidation(s: Snapshot, p: Payload<string>): (Snapshot, AudioIntent)
  {
    var audio := match p
      case Parsed(v) => if v == "wrong" then WrongSound else if v == "correct" then CorrectSound else NoSound
      case Unparsable => NoSound;
    (s.(teamIdBuzzing := None, buzzerIdBuzzing := None), audio)
  }

  function OnScoreAdjustment(s: Snapshot, p: Payload<ScoreChange>): Snapshot
  {
    match p
    case Unparsable => s
    case Parsed(c) =>
      if s.teams.None? then s else s.(teams := Some(Roster.AdjustScore(s.teams.value, c.id, c.score)))
  }

  function OnPairingWaiting(s: Snapshot, p: Payload<string>): Snapshot
  {
    match p
    case Unparsable => s
    case Parsed(teamId) => s.(teamPairingWaiting := Some(teamId))
  }

  function OnPairingAssigned(s: Snapshot, p: Payload<Assignment>): Snapshot
  {
    match p
    case Unparsable => s
    case Parsed(a) =>
      var teams := if s.teams.None? then s.teams
                   else Some(Roster.AssignBuzzer(s.teams.value, a.teamId, a.buzzerId));
      s.(teams := teams, teamPairingWaiting := None)
  }

  function OnPairingRestored(s: Snapshot, p: Payload<Option<seq<Team>>>): Snapshot
  {
    match p
    case Unparsable => s
    case Parsed(snap) => s.(teamPairingWaiting := None, teams := snap)
  }

  /** getPhase's completion: the phase verbatim, and the game id when it is truthy. */
  function OnPhaseLoaded(s: Snapshot, phase: Option<string>, gameId: Option<string>): Snapshot
  {
    s.(gameState := phase, game := if Truthy(gameId) then gameId else s.game)
  }

  /** Applies the one listener an event has, if any. */
  function Handle(s: Snapshot, e: Event): (Snapshot, Effects)
  {
    match e
    case PhaseChanged(p) => (OnPhaseChanged(s, p), NoEffects)
    case FieldsFound(p) => (OnFieldsFound(s, p), NoEffects)
    case AnswerValidation(p) =>
      var (r, audio) := OnAnswerValidation(s, p);
      (r, NoEffects.(audio := audio))
    case ScoreAdjustment(p) => (OnScoreAdjustment(s, p), NoEffects)
    case PairingWaiting(p) => (OnPairingWaiting(s, p), NoEffects)
    case PairingAssigned(p) => (OnPairingAssigned(s, p), NoEffects)
    case PairingRestored(p) => (OnPairingRestored(s, p), NoEffects)
    case TeamNotice => (s, NoEffects.(fetchTeams := true))
    case ChannelOpened => (s.(isServerReady := true), NoEffects)
    case ChannelFailed => (s.(isServerReady := false), NoEffects)
    case PhaseLoaded(ph, gid) => (OnPhaseLoaded(s, ph, gid), NoEffects)
    case TeamsLoaded(ts) => (s.(teams := ts), NoEffects)
    case SongLoaded(sg) => (s.(song := sg), NoEffects)
    case Unrecognised(_) => (s, NoEffects)
  }

  // ---- the reactions that follow a change of one watched field ----

  /** After `game` changes: a truthy game id asks for the roster and the song. */
  function GameReaction(s: Snapshot): (fetch: bool)
  {
    Truthy(s.game)
  }

  /** After `gameState` changes: the resets of the new phase, and whether the roster is re-read. */
  function PhaseReaction(s: Snapshot): (Snapshot, bool)
  {
    if !Truthy(s.gameState) then (s, false)
    else
      var cleared :=
        if IsPhase(s.gameState, Idle) || IsPhase(s.gameState, PrepReady) || IsPhase(s.gameState, Scores)
        then s.(pointFieldsFound := Some([]), bonusFieldsFound := Some([]), song := None, teams := None)
        else s;
      var calmed :=
        if IsPhase(s.gameState, Reveal) then cleared.(teamIdBuzzing := None, buzzerIdBuzzing := None)
        else cleared;
      (calmed, !IsPhase(s.gameState, PrepReady))
  }

  /** After `buzzerIdBuzzing` changes: the first team holding that buzzer becomes the buzzing team; without one, nothing changes. */
  function BuzzerReaction(s: Snapshot): Snapshot
  {
    if !Truthy(s.buzzerIdBuzzing) || s.teams.None? then s
    else
      match Roster.FindByBuzzer(s.teams.value, s.buzzerIdBuzzing.value)
      case None => s
      case Some(i) => s.(teamIdBuzzing := Some(s.teams.value[i].id))
  }

  /** One event followed by the reactions its changes trigger, in the order they are declared. */
  function Step(s: Snapshot, e: Event): (Snapshot, Effects)
  {
    var (h, fx) := Handle(s, e);
    var fetchForGame := h.game != s.game && GameReaction(h);
    var (p, fetchForPhase) := if h.gameState != s.gameState then PhaseReaction(h) else (h, false);
    var b := if p.buzzerIdBuzzing != s.buzzerIdBuzzing then BuzzerReaction(p) else p;
    (b, fx.(fetchTeams := fx.fetchTeams || fetchForGame || fetchForPhase,
            fetchSong := fx.fetchSong || fetchForGame))
  }

  /** A sequence of events applied in delivery order. */
  function Run(s: Snapshot, es: seq<Event>): Snapshot
    decreases |es|
  {
    if |es| == 0 then s else Run(Step(s, es[0]).0, es[1..])
  }
}
