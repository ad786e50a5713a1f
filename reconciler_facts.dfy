/** What the reconciler promises, stated over single steps and over runs of events. */
module ReconcilerFacts {
  import opened Wrappers
  import opened GameTypes
  import Roster
  import opened Reconciler

  /** A push event whose payload did not parse, other than answer_validation. */
  predicate DroppedPush(e: Event)
  {
    || (e.PhaseChanged? && e.change.Unparsable?)
    || (e.FieldsFound? && e.found.Unparsable?)
    || (e.ScoreAdjustment? && e.adjustment.Unparsable?)
    || (e.PairingWaiting? && e.waitingTeam.Unparsable?)
    || (e.PairingAssigned? && e.assignment.Unparsable?)
    || (e.PairingRestored? && e.snapshot.Unparsable?)
  }

  /** A payload that fails to parse changes nothing and asks for nothing. */
  lemma UnparsablePayloadIsDropped(s: Snapshot, e: Event)
    requires DroppedPush(e)
    ensures Step(s, e) == (s, NoEffects)
  {
  }

  /** An event type without a listener is ignored. */
  lemma UnrecognisedEventIgnored(s: Snapshot, name: string)
    ensures Step(s, Unrecognised(name)) == (s, NoEffects)
  {
  }

  /** answer_validation ends the buzz even when its payload is unreadable, and names the sound to play. */
  lemma AnswerValidationEndsBuzz(s: Snapshot, p: Payload<string>)
    ensures var (r, fx) := Step(s, AnswerValidation(p));
      && r.teamIdBuzzing.None? && r.buzzerIdBuzzing.None?
      && r.(teamIdBuzzing := s.teamIdBuzzing, buzzerIdBuzzing := s.buzzerIdBuzzing) == s
      && (fx.audio == WrongSound <==> p == Parsed("wrong"))
      && (fx.audio == CorrectSound <==> p == Parsed("correct"))
      && !fx.fetchTeams && !fx.fetchSong
  {
  }

  /** score_adjustment touches only the score of the teams with that id; order, other teams and an absent roster stay. */
  lemma ScoreAdjustmentIsolated(s: Snapshot, c: ScoreChange)
    ensures var (r, fx) := Step(s, ScoreAdjustment(Parsed(c)));
      && fx == NoEffects
      && r.(teams := s.teams) == s
      && (r.teams.None? <==> s.teams.None?)
      && (r.teams.Some? ==>
            && |r.teams.value| == |s.teams.value|
            && forall i :: 0 <= i < |r.teams.value| ==>
                 && r.teams.value[i].(score := s.teams.value[i].score) == s.teams.value[i]
                 && r.teams.value[i].score == if s.teams.value[i].id == c.id then c.score else s.teams.value[i].score)
  {
  }

  /** pairing.assigned gives the buzzer to the team whose id string matches and always ends the wait. */
  lemma PairingAssignedEndsWait(s: Snapshot, a: Assignment)
    ensures var (r, fx) := Step(s, PairingAssigned(Parsed(a)));
      && fx == NoEffects
      && r.teamPairingWaiting.None?
      && r.(teams := s.teams, teamPairingWaiting := s.teamPairingWaiting) == s
      && (r.teams.None? <==> s.teams.None?)
      && (r.teams.Some? ==>
            && |r.teams.value| == |s.teams.value|
            && forall i :: 0 <= i < |r.teams.value| ==>
                 && r.teams.value[i].(buzzerId := s.teams.value[i].buzzerId) == s.teams.value[i]
                 && r.teams.value[i].buzzerId ==
                      if s.teams.value[i].id.ToString() == a.teamId then Some(a.buzzerId) else s.teams.value[i].buzzerId)
  {
  }

  /** pairing.restored installs the roster snapshot and ends the wait; a second copy changes nothing more. */
  lemma PairingRestoredIdempotent(s: Snapshot, snap: Option<seq<Team>>)
    ensures var (r, fx) := Step(s, PairingRestored(Parsed(snap)));
      && r == s.(teams := snap, teamPairingWaiting := None)
      && fx == NoEffects
      && Step(r, PairingRestored(Parsed(snap))) == (r, fx)
  {
  }

  /** fields_found replaces both lists: the later payload wins, even when it lists fewer keys. */
  lemma FieldsFoundLastWriteWins(s: Snapshot, earlier: Payload<FoundFields>, later: FoundFields)
    ensures var r := Step(Step(s, FieldsFound(earlier)).0, FieldsFound(Parsed(later))).0;
      && r == Step(s, FieldsFound(Parsed(later))).0
      && r.pointFieldsFound == later.pointFields
      && r.bonusFieldsFound == later.bonusFields
      && r.(pointFieldsFound := s.pointFieldsFound, bonusFieldsFound := s.bonusFieldsFound) == s
  {
  }

  /** The phases whose arrival wipes the round: song, roster and found lists. */
  predicate ResetPhase(phase: string)
  {
    phase == WireName(Idle) || phase == WireName(PrepReady) || phase == WireName(Scores)
  }

  /** The buzzing team after looking `buzzer` up in `teams`: the first holder, or `stale` when nobody holds it. */
  function ResolvedTeam(teams: seq<Team>, buzzer: string, stale: Option<TeamId>): Option<TeamId>
  {
    match Roster.FindByBuzzer(teams, buzzer)
    case Some(i) => Some(teams[i].id)
    case None => stale
  }

  /** phase_changed: the phase is taken verbatim; found lists, song, roster and refresh follow the old and new phase. */
  lemma PhaseChangedOutcome(s: Snapshot, c: PhaseChange)
    ensures var (r, fx) := Step(s, PhaseChanged(Parsed(c)));
      var changed := s.gameState != Some(c.phase);
      var reset := changed && ResetPhase(c.phase);
      var restart := c.phase == WireName(Playing) && IsPhase(s.gameState, Reveal);
      && r.gameState == Some(c.phase)
      && r.pointFieldsFound == (if reset || restart then Some([]) else s.pointFieldsFound)
      && r.bonusFieldsFound == (if reset || restart then Some([]) else s.bonusFieldsFound)
      && r.song == (if reset then None else if c.song.Some? then c.song else s.song)
      && r.teams == (if reset then None else s.teams)
      && fx.fetchTeams == (changed && c.phase != "" && c.phase != WireName(PrepReady))
      && !fx.fetchSong && fx.audio == NoSound
      && r.isServerReady == s.isServerReady && r.game == s.game
      && r.teamPairingWaiting == s.teamPairingWaiting
      && r.buzzerIdBuzzing ==
         (if changed && c.phase == WireName(Reveal) then None
          else if c.phase == WireName(Paused) && Truthy(c.pausedBuzzer) then c.pausedBuzzer
          else s.buzzerIdBuzzing)
      && r.teamIdBuzzing ==
         (if changed && c.phase == WireName(Reveal) then None
          else if c.phase == WireName(Paused) && Truthy(c.pausedBuzzer) && c.pausedBuzzer != s.buzzerIdBuzzing && s.teams.Some?
          then ResolvedTeam(s.teams.value, c.pausedBuzzer.value, s.teamIdBuzzing)
          else s.teamIdBuzzing)
  {
  }

  /** Entering reveal ends the buzz. */
  lemma RevealEndsBuzz(s: Snapshot, c: PhaseChange)
    requires c.phase == WireName(Reveal) && !IsPhase(s.gameState, Reveal)
    ensures var r := Step(s, PhaseChanged(Parsed(c))).0;
      r.buzzerIdBuzzing.None? && r.teamIdBuzzing.None?
  {
  }

  /** Reveal to scores clears song, roster and found lists. */
  lemma RevealToScoresClears(s: Snapshot, song: Option<Song>, buzzer: Option<string>)
    requires IsPhase(s.gameState, Reveal)
    ensures var r := Step(s, PhaseChanged(Parsed(PhaseChange(WireName(Scores), song, buzzer)))).0;
      && r.song.None? && r.teams.None?
      && r.pointFieldsFound == Some([]) && r.bonusFieldsFound == Some([])
  {
    PhaseChangedOutcome(s, PhaseChange(WireName(Scores), song, buzzer));
  }

  /** Playing to pause keeps the roster and the song (unless the payload brings a new one). */
  lemma PlayingToPauseKeepsRound(s: Snapshot, c: PhaseChange)
    requires IsPhase(s.gameState, Playing) && c.phase == WireName(Paused)
    ensures var r := Step(s, PhaseChanged(Parsed(c))).0;
      && r.teams == s.teams
      && r.song == (if c.song.Some? then c.song else s.song)
      && r.pointFieldsFound == s.pointFieldsFound && r.bonusFieldsFound == s.bonusFieldsFound
  {
    PhaseChangedOutcome(s, c);
  }

  /** A song carried by phase_changed does not clear the found lists. */
  lemma NewSongKeepsFoundLists(s: Snapshot, c: PhaseChange)
    requires c.song.Some? && !ResetPhase(c.phase)
    requires !(c.phase == WireName(Playing) && IsPhase(s.gameState, Reveal))
    ensures var r := Step(s, PhaseChanged(Parsed(c))).0;
      && r.song == c.song
      && r.pointFieldsFound == s.pointFieldsFound && r.bonusFieldsFound == s.bonusFieldsFound
  {
    PhaseChangedOutcome(s, c);
  }

  /** A paused buzzer becomes the buzzing buzzer and resolves to the first team holding it; a failed lookup keeps the old team. */
  lemma PausedBuzzerResolves(s: Snapshot, c: PhaseChange)
    requires c.phase == WireName(Paused) && Truthy(c.pausedBuzzer)
    requires c.pausedBuzzer != s.buzzerIdBuzzing && s.teams.Some?
    ensures var r := Step(s, PhaseChanged(Parsed(c))).0;
      && r.buzzerIdBuzzing == c.pausedBuzzer
      && match Roster.FindByBuzzer(s.teams.value, c.pausedBuzzer.value)
         case Some(i) => r.teamIdBuzzing == Some(s.teams.value[i].id)
         case None => r.teamIdBuzzing == s.teamIdBuzzing
  {
  }

  /** The same paused buzzer reported again is not looked up again. */
  lemma RepeatedBuzzerNotReResolved(s: Snapshot, c: PhaseChange)
    requires c.pausedBuzzer == s.buzzerIdBuzzing
    ensures Step(s, PhaseChanged(Parsed(c))).0.teamIdBuzzing ==
      (if c.phase == WireName(Reveal) && !IsPhase(s.gameState, Reveal) then None else s.teamIdBuzzing)
  {
  }

  /** A roster that arrives after the buzz does not resolve it: only a change of buzzer triggers the lookup. */
  lemma RosterLoadDoesNotResolve(s: Snapshot, ts: Option<seq<Team>>)
    ensures var (r, fx) := Step(s, TeamsLoaded(ts));
      r == s.(teams := ts) && fx == NoEffects
  {
  }

  /** A failed lookup leaves a team buzzing whose buzzer is no longer the buzzing one. */
  lemma FailedLookupKeepsStaleTeam()
    ensures var t := Team(StrId("t1"), Some("b1"), "Red", 3, None);
      var s := Initial.(teams := Some([t]), gameState := Some("pause"),
                        buzzerIdBuzzing := Some("b1"), teamIdBuzzing := Some(StrId("t1")));
      var r := Step(s, PhaseChanged(Parsed(PhaseChange("pause", None, Some("b2"))))).0;
      && r.buzzerIdBuzzing == Some("b2")
      && r.teamIdBuzzing == Some(StrId("t1"))
      && r.teams.value[0].buzzerId != r.buzzerIdBuzzing
  {
  }

  /** Re-announcing the current phase triggers no reaction: no reset, no buzz clearing, no roster refresh.
      Only the payload's own song and, on pause, its buzzer come through. */
  lemma SamePhaseNoReaction(s: Snapshot, c: PhaseChange)
    requires s.gameState == Some(c.phase)
    ensures var (r, fx) := Step(s, PhaseChanged(Parsed(c)));
      && r.teams == s.teams
      && r.pointFieldsFound == s.pointFieldsFound && r.bonusFieldsFound == s.bonusFieldsFound
      && r.song == (if c.song.Some? then c.song else s.song)
      && fx == NoEffects
      && (c.phase != WireName(Paused) ==> r == s.(song := r.song))
      && (c.phase == WireName(Paused) ==>
            && r.buzzerIdBuzzing == (if Truthy(c.pausedBuzzer) then c.pausedBuzzer else s.buzzerIdBuzzing)
            && r == s.(song := r.song, buzzerIdBuzzing := r.buzzerIdBuzzing, teamIdBuzzing := r.teamIdBuzzing))
  {
  }

  /** getPhase's answer is a phase change like any other: it triggers the phase reaction, and a new game id asks for roster and song. */
  lemma PhaseLoadedOutcome(s: Snapshot, phase: Option<string>, gameId: Option<string>)
    ensures var (r, fx) := Step(s, PhaseLoaded(phase, gameId));
      var changed := s.gameState != phase;
      var reset := changed && phase.Some? && ResetPhase(phase.value);
      var newGame := Truthy(gameId) && gameId != s.game;
      && r.gameState == phase
      && r.game == (if Truthy(gameId) then gameId else s.game)
      && r.song == (if reset then None else s.song)
      && r.teams == (if reset then None else s.teams)
      && r.pointFieldsFound == (if reset then Some([]) else s.pointFieldsFound)
      && r.bonusFieldsFound == (if reset then Some([]) else s.bonusFieldsFound)
      && r.buzzerIdBuzzing == (if changed && IsPhase(phase, Reveal) then None else s.buzzerIdBuzzing)
      && r.teamIdBuzzing == (if changed && IsPhase(phase, Reveal) then None else s.teamIdBuzzing)
      && r.isServerReady == s.isServerReady && r.teamPairingWaiting == s.teamPairingWaiting
      && fx.fetchSong == newGame
      && fx.fetchTeams == (newGame || (changed && Truthy(phase) && !IsPhase(phase, PrepReady)))
  {
  }

  /** Team notifications only ask for a fresh roster. */
  lemma TeamNoticeRefreshesRoster(s: Snapshot)
    ensures Step(s, TeamNotice) == (s, NoEffects.(fetchTeams := true))
  {
  }

  /** A dropped connection keeps the last snapshot on show; only readiness changes. */
  lemma ChannelFailurePreservesSnapshot(s: Snapshot)
    ensures Step(s, ChannelFailed) == (s.(isServerReady := false), NoEffects)
    ensures Step(s, ChannelOpened) == (s.(isServerReady := true), NoEffects)
  {
  }

  /** A team is buzzing only while some non-empty buzzer id is. */
  predicate BuzzConsistent(s: Snapshot)
  {
    s.teamIdBuzzing.Some? ==> Truthy(s.buzzerIdBuzzing)
  }

  lemma StepKeepsBuzzConsistent(s: Snapshot, e: Event)
    requires BuzzConsistent(s)
    ensures BuzzConsistent(Step(s, e).0)
  {
  }

  /** Events apply one after another: a run splits at any point. */
  lemma {:induction false} RunAppend(s: Snapshot, a: seq<Event>, b: seq<Event>)
    ensures Run(s, a + b) == Run(Run(s, a), b)
    decreases |a|
  {
    if |a| == 0 {
      assert a + b == b;
    } else {
      assert (a + b)[0] == a[0];
      assert (a + b)[1..] == a[1..] + b;
      RunAppend(Step(s, a[0]).0, a[1..], b);
    }
  }

  /** From the initial state, every run of events keeps the buzz consistent. */
  lemma {:induction false} RunKeepsBuzzConsistent(s: Snapshot, es: seq<Event>)
    requires BuzzConsistent(s)
    ensures BuzzConsistent(Run(s, es))
    decreases |es|
  {
    if |es| > 0 {
      StepKeepsBuzzConsistent(s, es[0]);
      RunKeepsBuzzConsistent(Step(s, es[0]).0, es[1..]);
    }
  }

  /** Delivering one more event takes the state reached so far one step further. */
  lemma RunThenStep(s: Snapshot, es: seq<Event>, e: Event)
    ensures Run(s, es + [e]) == Step(Run(s, es), e).0
  {
    RunAppend(s, es, [e]);
    assert [e][1..] == [];
  }

  /** Whatever came before, once an answer is judged no team and no buzzer are buzzing. */
  lemma ValidationEndsEveryBuzz(s: Snapshot, es: seq<Event>, p: Payload<string>)
    ensures Run(s, es + [AnswerValidation(p)]).buzzerIdBuzzing.None?
    ensures Run(s, es + [AnswerValidation(p)]).teamIdBuzzing.None?
  {
    RunThenStep(s, es, AnswerValidation(p));
    AnswerValidationEndsBuzz(Run(s, es), p);
  }

  /** Whatever came before, the found lists on show are those of the latest fields_found. */
  lemma LatestFieldsFoundOnShow(s: Snapshot, es: seq<Event>, f: FoundFields)
    ensures Run(s, es + [FieldsFound(Parsed(f))]).pointFieldsFound == f.pointFields
    ensures Run(s, es + [FieldsFound(Parsed(f))]).bonusFieldsFound == f.bonusFields
  {
    RunThenStep(s, es, FieldsFound(Parsed(f)));
  }
}
