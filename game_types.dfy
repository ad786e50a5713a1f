/** The records exchanged with the game server and the table of phase wire names. */
module GameTypes {
  import opened Wrappers
  import Text

  /** One piece of song trivia: its label, its secret value and what it is worth. */
  datatype Field = Field(key: string, value: string, points: int)

  datatype Song = Song(
    id: string,
    startsAtMs: int,
    guessDurationMs: int,
    url: string,
    pointFields: seq<Field>,
    bonusFields: seq<Field>)

  /** A tile colour as hue, saturation and value. */
  datatype Color = Color(h: real, s: real, v: real)

  /** A team id as it arrives in JSON: declared a string, but the server may send a number. */
  datatype TeamId = StrId(str: string) | NumId(num: int) {

    /** JavaScript's `id.toString()`. */
    function ToString(): (s: string)
      ensures StrId? ==> s == str
      ensures NumId? ==> 1 <= |s| && (s[0] == '-' <==> num < 0)
      ensures NumId? && num >= 0 ==> Text.AllDigits(s) && Text.DigitsValue(s) == num
      ensures NumId? && num < 0 ==> Text.AllDigits(s[1..]) && Text.DigitsValue(s[1..]) == -num
      ensures NumId? && num == 0 ==> s == "0"
      ensures NumId? && num > 0 ==> s[0] != '0'
      ensures NumId? && num < 0 ==> 2 <= |s| && s[1] != '0'
    {
      match this
      case StrId(t) => t
      case NumId(n) => Text.IntToString(n)
    }
  }

  /** A team; `buzzerId` is `None` both when the member is absent and when it is `null`. */
  datatype Team = Team(id: TeamId, buzzerId: Option<string>, name: string, score: int, color: Option<Color>)

  /** The server's coarse game phases. */
  datatype Phase = Idle | PrepReady | Pairing | Playing | Paused | Reveal | Scores

  /** The string the server sends for each phase. */
  function WireName(p: Phase): string
  {
    match p
    case Idle => "idle"
    case PrepReady => "prep_ready"
    case Pairing => "pairing"
    case Playing => "playing"
    case Paused => "pause"
    case Reveal => "reveal"
    case Scores => "scores"
  }

  /** The phase a wire string names, if any. */
  function ParsePhase(s: string): (r: Option<Phase>)
    ensures r.Some? ==> WireName(r.value) == s
    ensures r.None? ==> forall p :: WireName(p) != s
  {
    if s == "idle" then Some(Idle)
    else if s == "prep_ready" then Some(PrepReady)
    else if s == "pairing" then Some(Pairing)
    else if s == "playing" then Some(Playing)
    else if s == "pause" then Some(Paused)
    else if s == "reveal" then Some(Reveal)
    else if s == "scores" then Some(Scores)
    else None
  }

  /** Decoding a wire name gives back the phase it came from. */
  lemma ParseWireName(p: Phase)
    ensures ParsePhase(WireName(p)) == Some(p)
  {
  }

  /** No two phases share a wire name. */
  lemma WireNamesDistinct(p: Phase, q: Phase)
    ensures WireName(p) == WireName(q) <==> p == q
  {
    ParseWireName(p);
    ParseWireName(q);
  }

  /** The paused phase travels as "pause", so "paused" names no phase. */
  lemma PausedWireName()
    ensures WireName(Paused) == "pause"
    ensures ParsePhase("paused") == None
  {
  }
}
