# Neon Beat public display: a verified model of the game-state client

This project models the client side of the Neon Beat trivia/buzzer game display. The display
keeps a local, read-only mirror of a game that lives on a remote server. It fills the mirror from
three bootstrap reads (phase, roster, song) and from a stream of named push events
(`phase_changed`, `fields_found`, `answer_validation`, `score_adjustment`, `pairing.*`,
`team.*`). It then derives what the screens show: which answer fields are revealed, the final
ranking, and which team tile is buzzing or pairing. It also keeps the equalizer's tuning settings.

Modules, one per source file or concern:

- `GameTypes` (`src/types/game.ts`): the `Field`, `Song` and `Team` records and the phase wire names.
  A team id is `StrId` or `NumId`, because the server may send a number where the type says string.
  The hook compares ids with `toString()` in one handler and with `===` in another, and the
  difference only shows with numeric ids.
- `Roster`: the per-team updates (`prevTeams.map`) and the buzzer lookup (`teams.find`) of the hook, as functions on sequences.
- `Reconciler`: the snapshot (every state field of the hook except the connection handle). Each
  handler is a pure function. The three reactions run after `game`, `gameState` or
  `buzzerIdBuzzing` changes. `Step` applies one event and then the reactions it triggers.
  Fetches are outputs (`Effects.fetchTeams`, `fetchSong`). Successful fetch completions are input
  events (`PhaseLoaded`, `TeamsLoaded`, `SongLoaded`). Sounds are an `AudioIntent`.
- `ReconcilerFacts`: the properties of single steps and of runs of events.
- `PublicHook`: the hook as a class. Its fields are updated in place by one method per event
  and by the reaction methods. Each method is proved to leave the state that the `Reconciler`
  model gives for its event: the handler or reaction function of the same name where there is
  one, and otherwise the matching case of `Handle` (channel open and error, roster and song
  loads). `Dispatch` is proved to follow `Step`.
- `FieldsView`, `AnswersView`, `TeamsView`, `TeamTile`, `ScoresView`: the view derivations of the components.
- `Json`, `EqualizerSettings`: the settings merge, the updates, and a class holding the settings state.

Some behaviours of the hook are easy to misread. The model states them as the code has them:

- A roster that arrives after a buzz does not resolve it. Resolution re-runs only when
  `buzzerIdBuzzing` changes (`useNeonBeatPublic.tsx:215`). See `RosterLoadDoesNotResolve`.
- A failed lookup keeps the previous `teamIdBuzzing`, even when it belongs to another buzzer.
  So "a team is buzzing only if it holds the buzzing buzzer" does not hold. See `FailedLookupKeepsStaleTeam`.
  What does hold is `BuzzConsistent`: a team id is set only while a buzzer id is.
- A new song carried by `phase_changed` does not clear the found lists (`useNeonBeatPublic.tsx:89-91`).
- A `fields_found` payload that omits a list stores "no list" rather than an empty list, and the
  field view then reveals nothing from it. This is why the found lists are `Option<seq<string>>`.
- `song_id` in `fields_found` is ignored.

## Model

| member | source | states |
|---|---|---|
| GameTypes.ParsePhase | src/types/game.ts:28-38 | a string decodes to a phase exactly when it is one of the seven wire names, and then to the phase with that name |
| GameTypes.ParseWireName | src/types/game.ts:28-36 | decoding a phase's wire name gives the phase back |
| GameTypes.WireNamesDistinct | src/types/game.ts:28-36 | two phases have the same wire name only if they are the same phase |
| GameTypes.PausedWireName | src/types/game.ts:33 | the paused phase travels as "pause"; "paused" names no phase |
| GameTypes.TeamId.ToString | src/hooks/useNeonBeatPublic.tsx:113 | a string id converts to itself; a numeric id to a minus sign exactly when it is negative, followed by decimal digits without a leading zero whose value is its magnitude |
| Roster.AdjustScore | src/hooks/useNeonBeatPublic.tsx:144-146 | same length and order; a team differs from its input at most in its score, which becomes the new score exactly when its id is `===` the payload id |
| Roster.AssignBuzzer | src/hooks/useNeonBeatPublic.tsx:112-114 | same length and order; a team differs at most in its buzzer, which is set exactly when its id string equals the payload's team id |
| Roster.FindByBuzzer | src/hooks/useNeonBeatPublic.tsx:211 | returns the first team that holds the buzzer, or none when no team holds it |
| Roster.UnpairedTeamNeverFound | src/types/game.ts:18 | a team whose buzzer is absent or null is never the one found |
| Roster.StringIdsMatchAlike | src/hooks/useNeonBeatPublic.tsx:113 | for a string id, the `toString()` match and strict equality agree |
| Roster.NumericIdMatchesOnlyByString | src/hooks/useNeonBeatPublic.tsx:113 | for every numeric id: two numeric ids convert alike only if they are equal; a payload string that matches it is its decimal rendering (a sign when negative, digits with the id's magnitude as value, no leading zero); it is never `===` a string id |
| Roster.NumericIdSeven | src/hooks/useNeonBeatPublic.tsx:113 | the numeric id 7 is matched by the payload "7" but not by "07", and differs from the string id "7" |
| ReconcilerFacts.UnparsablePayloadIsDropped | src/hooks/useNeonBeatPublic.tsx:53-60 | every handler except answer_validation leaves state and requests untouched when its payload fails to parse |
| ReconcilerFacts.UnrecognisedEventIgnored | src/hooks/useNeonBeatPublic.tsx:230-242 | an event type with no listener changes nothing |
| ReconcilerFacts.AnswerValidationEndsBuzz | src/hooks/useNeonBeatPublic.tsx:155-173 | both buzz ids are cleared even when the payload fails to parse, and nothing else changes; "wrong" gives the wrong sound, "correct" the correct sound, anything else none |
| ReconcilerFacts.ScoreAdjustmentIsolated | src/hooks/useNeonBeatPublic.tsx:138-149 | only the scores of teams whose id is `===` the payload id change; other fields, other teams, order and an absent roster stay |
| ReconcilerFacts.PairingAssignedEndsWait | src/hooks/useNeonBeatPublic.tsx:106-118 | the matching teams get the buzzer and the waiting team is cleared unconditionally, with or without a roster or a match |
| ReconcilerFacts.PairingRestoredIdempotent | src/hooks/useNeonBeatPublic.tsx:120-127 | the roster becomes the payload snapshot and the wait is cleared; applying the same payload again changes nothing |
| ReconcilerFacts.FieldsFoundLastWriteWins | src/hooks/useNeonBeatPublic.tsx:129-136 | both found lists become the later payload's lists, whatever came before, so a subset shrinks them; nothing else changes |
| ReconcilerFacts.PhaseChangedOutcome | src/hooks/useNeonBeatPublic.tsx:80-96 | the phase is taken verbatim. Found lists empty on reveal-to-playing or on a change to idle/prep_ready/scores. Song and roster go only on such a change, and the song is replaced only when the payload has one. The buzzer is cleared on a change to reveal, set to a truthy paused buzzer on pause, and otherwise kept. The buzzing team is cleared on a change to reveal, re-resolved only for a new paused buzzer with a roster loaded, and otherwise kept. A roster refresh is asked exactly when the phase changed to a non-empty value other than prep_ready |
| ReconcilerFacts.RevealEndsBuzz | src/hooks/useNeonBeatPublic.tsx:199-202 | a change to reveal clears both buzz ids |
| ReconcilerFacts.RevealToScoresClears | src/hooks/useNeonBeatPublic.tsx:193-198 | reveal to scores clears song, roster and both found lists |
| ReconcilerFacts.PlayingToPauseKeepsRound | src/hooks/useNeonBeatPublic.tsx:84-94 | playing to pause keeps roster and found lists; the song stays unless the payload brings one |
| ReconcilerFacts.NewSongKeepsFoundLists | src/hooks/useNeonBeatPublic.tsx:89-91 | a song carried by phase_changed replaces the song but does not clear the found lists |
| ReconcilerFacts.PausedBuzzerResolves | src/hooks/useNeonBeatPublic.tsx:208-215 | a new non-empty paused buzzer becomes the buzzing buzzer, and the first team holding it becomes the buzzing team; with no such team the previous team id stays |
| ReconcilerFacts.RepeatedBuzzerNotReResolved | src/hooks/useNeonBeatPublic.tsx:215 | reporting the same buzzer again does not look it up again |
| ReconcilerFacts.RosterLoadDoesNotResolve | src/hooks/useNeonBeatPublic.tsx:25-31 | a roster load only replaces the roster: it does not resolve a pending buzz and asks for nothing |
| ReconcilerFacts.FailedLookupKeepsStaleTeam | src/hooks/useNeonBeatPublic.tsx:212-214 | after a failed lookup the buzzing team can be one whose buzzer is not the buzzing one |
| ReconcilerFacts.SamePhaseNoReaction | src/hooks/useNeonBeatPublic.tsx:206 | re-announcing the current phase keeps roster and both found lists and asks for nothing. Only the payload's own song comes through, and on pause a truthy paused buzzer (which may re-resolve the buzzing team); nothing else changes |
| ReconcilerFacts.PhaseLoadedOutcome | src/hooks/useNeonBeatPublic.tsx:41-50 | the bootstrap phase is stored verbatim and triggers the phase reaction: a new idle/prep_ready/scores phase empties song, roster and found lists; a new reveal phase clears both buzz ids; a new phase other than prep_ready asks for the roster. A new truthy game id asks for roster and song |
| ReconcilerFacts.TeamNoticeRefreshesRoster | src/hooks/useNeonBeatPublic.tsx:151-153 | team.created/updated/deleted only ask for the roster |
| ReconcilerFacts.ChannelFailurePreservesSnapshot | src/hooks/useNeonBeatPublic.tsx:220-228 | opening or losing the channel changes only `isServerReady` |
| ReconcilerFacts.StepKeepsBuzzConsistent | src/hooks/useNeonBeatPublic.tsx:208-215 | every step keeps "a team is buzzing only while a non-empty buzzer id is" |
| ReconcilerFacts.RunKeepsBuzzConsistent | src/hooks/useNeonBeatPublic.tsx:171-172 | every run of events from a consistent state stays consistent |
| ReconcilerFacts.RunAppend | src/hooks/useNeonBeatPublic.tsx:230-242 | events apply one after another: a run splits at any point |
| ReconcilerFacts.RunThenStep | src/hooks/useNeonBeatPublic.tsx:230-242 | the state after one more event is that event's step from the state reached so far |
| ReconcilerFacts.ValidationEndsEveryBuzz | src/hooks/useNeonBeatPublic.tsx:171-172 | after any history, an answer_validation leaves no buzzer and no team buzzing |
| ReconcilerFacts.LatestFieldsFoundOnShow | src/hooks/useNeonBeatPublic.tsx:133-134 | right after a fields_found, whatever came before, the found lists are that payload's lists |
| PublicHook.NeonBeatPublic.constructor | src/hooks/useNeonBeatPublic.tsx:13-23 | the initial state: not ready, no game, roster, song, phase, waiting team or buzz; empty found lists |
| PublicHook.NeonBeatPublic.OnPhaseChanged | src/hooks/useNeonBeatPublic.tsx:80-96 | the fields become what the phase_changed handler gives |
| PublicHook.NeonBeatPublic.OnFieldsFound | src/hooks/useNeonBeatPublic.tsx:129-136 | the fields become what the fields_found handler gives |
| PublicHook.NeonBeatPublic.OnAnswerValidation | src/hooks/useNeonBeatPublic.tsx:155-173 | fields and returned sound are those of the answer_validation handler |
| PublicHook.NeonBeatPublic.OnScoreAdjustment | src/hooks/useNeonBeatPublic.tsx:138-149 | the fields become what the score_adjustment handler gives |
| PublicHook.NeonBeatPublic.OnPairingWaiting | src/hooks/useNeonBeatPublic.tsx:98-104 | the fields become what the pairing.waiting handler gives |
| PublicHook.NeonBeatPublic.OnPairingAssigned | src/hooks/useNeonBeatPublic.tsx:106-118 | the fields become what the pairing.assigned handler gives |
| PublicHook.NeonBeatPublic.OnPairingRestored | src/hooks/useNeonBeatPublic.tsx:120-127 | the fields become what the pairing.restored handler gives |
| PublicHook.NeonBeatPublic.OnChannelOpen | src/hooks/useNeonBeatPublic.tsx:220-223 | only `isServerReady` changes, to true |
| PublicHook.NeonBeatPublic.OnChannelError | src/hooks/useNeonBeatPublic.tsx:225-228 | only `isServerReady` changes, to false |
| PublicHook.NeonBeatPublic.OnPhaseLoaded | src/hooks/useNeonBeatPublic.tsx:41-50 | the phase becomes the loaded one; the game id only when truthy |
| PublicHook.NeonBeatPublic.OnTeamsLoaded | src/hooks/useNeonBeatPublic.tsx:25-31 | only the roster changes, to the loaded one |
| PublicHook.NeonBeatPublic.OnSongLoaded | src/hooks/useNeonBeatPublic.tsx:33-39 | only the song changes, to the loaded one |
| PublicHook.NeonBeatPublic.PhaseReaction | src/hooks/useNeonBeatPublic.tsx:191-206 | fields and returned roster request are those of the phase reaction |
| PublicHook.NeonBeatPublic.BuzzerReaction | src/hooks/useNeonBeatPublic.tsx:208-215 | the fields become what the buzzer resolution gives |
| PublicHook.NeonBeatPublic.GameReaction | src/hooks/useNeonBeatPublic.tsx:185-189 | roster and song are asked for exactly when the game id is truthy |
| PublicHook.NeonBeatPublic.Dispatch | src/hooks/useNeonBeatPublic.tsx:217-263 | delivering an event and running the reactions it triggers gives `Step`'s state and requests |
| FieldsView.RenderFields | src/components/Fields/Fields.tsx:17-34 | one row per point field then one per bonus field, in order; every key shown; a point field is revealed exactly when `revealAll` is true or its key is found; a bonus field exactly when its key is found; a hidden value shows as "????" |
| FieldsView.SecretsStayHidden | src/components/Fields/Fields.tsx:18-31 | without `revealAll`, a row shows anything but the mask only if its key is in its found list, and then shows the value; an absent list reveals nothing |
| FieldsView.RevealAllOnlyPointFields | src/components/Fields/Fields.tsx:18-27 | `revealAll` shows every point field and leaves the bonus rows exactly as without it |
| AnswersView.RenderAnswers | src/components/Answers/Answers.tsx:17-22 | one row per answer, in order, with its key; the value when shown, "????" otherwise |
| AnswersView.HiddenValueNeverShown | src/components/Answers/Answers.tsx:20 | a hidden answer's value never appears in its row |
| TeamsView.RenderTeams | src/components/Teams/Teams.tsx:21-47 | no roster or an empty one gives the placeholder; otherwise one tile per team in order, custom for all when a renderer is given, else buzzing exactly when `teamBuzzing === id` and pairing exactly when `currentTeamPairing === id` |
| TeamsView.AtMostOneHighlighted | src/components/Teams/Teams.tsx:35-36 | with distinct ids, at most one tile is buzzing and at most one is pairing |
| TeamTile.StatusBadge | src/components/Teams/Team.tsx:36-52 | the buzzing badge exactly when buzzing; the pairing badge exactly when pairing and not buzzing; none otherwise |
| TeamTile.StatusWord | src/components/Teams/Team.tsx:66 | "buzzing", "pairing" or "idle" with the same priority as the badge |
| TeamTile.ClassEntries | src/components/Teams/Team.tsx:25-34 | no empty entry survives; the base classes are always there; the buzzing classes exactly when buzzing (or passed as the class name), the pairing classes likewise |
| TeamTile.TileBackground | src/components/Teams/Team.tsx:54-69 | '#c207a0' exactly when the team has no colour; otherwise a colour built from the hue alone |
| TeamTile.RenderTile | src/components/Teams/Team.tsx:18-71 | with omitted flags read as false: the buzzing badge, the pressed state and the buzzing classes exactly when `isBuzzing` is true; the pairing badge exactly when pairing and not buzzing; the label "<name> is buzzing/pairing/idle with score <score>" with the same priority; '#c207a0' without a team colour, the hue otherwise |
| TeamTile.FlagsDefaultToFalse | src/components/Teams/Team.tsx:20-21 | a tile rendered without flags has no badge, is not pressed and carries neither highlight class |
| TeamTile.BackgroundIgnoresSaturationAndValue | src/components/Teams/Team.tsx:54-57 | two colours with the same hue give the same background |
| Text.NonEmpty | src/components/Teams/Team.tsx:33 | `filter(Boolean)` keeps exactly the non-empty entries and never lengthens the list |
| Text.NonEmptySingle | src/components/Teams/Team.tsx:33 | a single entry survives the filter exactly when it is non-empty |
| Text.NonEmptyAppend | src/components/Teams/Team.tsx:33 | the filter works entry by entry: filtering a concatenation concatenates the filtered parts, so order and repeats are kept |
| Text.NatToString | src/components/Teams/Team.tsx:66 | a non-negative number renders as decimal digits, without a leading zero, whose value is the number |
| Text.IntToStringInjective | src/components/Scores/Scores.tsx:56 | different integers render as different strings |
| ScoresView.SortByScore | src/components/Scores/Scores.tsx:12 | the sorted copy is a permutation of the teams with non-increasing scores |
| ScoresView.SortIsStable | src/components/Scores/Scores.tsx:12 | for every score, the teams with that score appear in their input order |
| ScoresView.PointsSuffix | src/components/Scores/Scores.tsx:56 | "pt" exactly when the score is 1, "pts" otherwise |
| ScoresView.PointsLabelShowsScore | src/components/Scores/Scores.tsx:56 | the score line "<score> pt(s)" determines the score: different scores never share a line |
| ScoresView.Arrange | src/components/Scores/Scores.tsx:18-61 | gold, silver and bronze are places 0, 1 and 2 when they exist; the others follow in order with rank index + 4 |
| ScoresView.PodiumHoldsTopScores | src/components/Scores/Scores.tsx:12-45 | gold outscores or ties every team; silver ties or beats bronze, and bronze every listed team |
| ScoresView.EveryTeamShownOnce | src/components/Scores/Scores.tsx:18-61 | read in rank order the board is the sorted roster, so every team appears exactly once |
| ScoresView.ScoreLinesFollowRanking | src/components/Scores/Scores.tsx:25-56 | the board's score line in place i is that of the i-th ranked team, and two lines read alike exactly when those teams scored the same |
| Json.Member | src/hooks/useEqualizerSettings.tsx:40-46 | a member exists exactly for a key of an object, and is that key's value |
| EqualizerSettings.MergeWithDefaults | src/hooks/useEqualizerSettings.tsx:39-51 | every setting takes the stored value exactly when it has the right type (a number; an array of three numbers for the camera) and the default otherwise |
| EqualizerSettings.Loaded | src/hooks/useEqualizerSettings.tsx:32-59 | nothing stored, a parse failure or a stored null keep the current settings; any other parsed value gives the merge |
| EqualizerSettings.NothingUsableKeepsDefaults | src/hooks/useEqualizerSettings.tsx:55-57 | from the defaults, nothing usable in storage leaves exactly the defaults |
| EqualizerSettings.EmptyObjectMergesToDefaults | src/hooks/useEqualizerSettings.tsx:39-51 | an object with no usable member merges to exactly the defaults |
| EqualizerSettings.With | src/hooks/useEqualizerSettings.tsx:75-78 | the updated key holds the new value and every other key is unchanged |
| EqualizerSettings.Raised | src/hooks/useEqualizerSettings.tsx:91 | `min(a + 1, 50)`: at most 50, never more than one up, and in [0, 50] when `a` was |
| EqualizerSettings.Lowered | src/hooks/useEqualizerSettings.tsx:92 | `max(a - 1, 0)`: at least 0, never more than one down, and in [0, 50] when `a` was |
| EqualizerSettings.SettingsHook.constructor | src/hooks/useEqualizerSettings.tsx:29 | the settings start as the defaults |
| EqualizerSettings.SettingsHook.Load | src/hooks/useEqualizerSettings.tsx:32-59 | the settings become what the mount-time load gives |
| EqualizerSettings.SettingsHook.UpdateSetting | src/hooks/useEqualizerSettings.tsx:71-79 | only the given key changes, to the given value |
| EqualizerSettings.SettingsHook.ResetToDefaults | src/hooks/useEqualizerSettings.tsx:82-84 | the settings become exactly the defaults |
| EqualizerSettings.SettingsHook.IncreaseAmplitude | src/hooks/useEqualizerSettings.tsx:91 | only the amplitude changes, to `min(a + 1, 50)`; an amplitude in [0, 50] stays there |
| EqualizerSettings.SettingsHook.DecreaseAmplitude | src/hooks/useEqualizerSettings.tsx:92 | only the amplitude changes, to `max(a - 1, 0)`; an amplitude in [0, 50] stays there |
| EqualizerSettings.SettingsHook.AdjustGridSize | src/hooks/useEqualizerSettings.tsx:93-95 | the grid columns and rows take the new values and every other setting is unchanged |

## Left out

- Network I/O is not modelled: the `fetch` calls, the `EventSource` with its listener wiring and
  teardown, and the base-URL setting. A fetch request is an output flag. A successful completion
  is an input event. A failed fetch sets nothing, so it is simply no event. The mount effect that
  opens the channel and asks for the phase is not modelled; its answer is a `PhaseLoaded` event.
- The `sse` state field (the connection handle) is not part of the snapshot.
- Audio playback, its volume and the module-level `Audio` objects: the model emits an `AudioIntent` instead.
- Console logging, the log-only `test.buzz` listener and the commented-out `game.session` handler.
  The model has no `test.buzz` event; it changes no state.
- React scheduling is not modelled. Events are applied one at a time. After each handler, the
  reactions run in declaration order when their watched field changed. The races between fetch
  completions and pushes are out of scope, and so are stale closures within one render.
- Payload fields are taken at their declared types. A member missing at run time is not modelled,
  except the found lists and the restored snapshot, which may be absent. `Unparsable` stands for
  both a parse failure and a falsy parse result.
- Non-integer team ids are not modelled; a numeric id is an integer.
- JSON text parsing and `localStorage` are not modelled: the settings load starts from an
  already parsed value. The save effect (`useEqualizerSettings.tsx:62-68`) is left out.
- Floating point is not modelled: settings numbers are exact reals and scores are integers.
  `TeamTile.TileBackground` keeps the hue as a number and leaves out its text formatting.
- Rendering details are left out: markup, styles, medal images, click handlers, `data-testid`
  and the `key` props.
- `TeamTile.RenderTile`: the class string is the `join(' ')` of the surviving entries. No
  property is proved about the spacing of the joined string itself.
- `src/components/YoutubePlayer/YoutubePlayer.tsx`, `src/App.tsx` and `tailwind.config.js` are not
  part of this model. They hold media embedding, demo composition and styling data.
