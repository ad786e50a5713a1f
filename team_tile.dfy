/** One team tile: its status badge, accessible label, class list and background. */
module TeamTile {
  import opened Wrappers
  import opened GameTypes
  import Text

  const BaseClasses := "team-tile"
  const LayoutClasses := "rounded-lg p-4 flex flex-col justify-between min-w-44 h-32 border transition-all duration-300 select-none cursor-pointer"
  const BorderClasses := "border-neutral-700 hover:border-neutral-500"
  const BuzzingClasses := "team-tile-buzzing ring-2 ring-amber-400 border-amber-300 bg-amber-500/20 shadow-[0_0_15px_theme(colors.amber.400)] scale-[1.03]"
  const PairingClasses := "team-tile-pairing ring-2 ring-blue-400 border-blue-300 bg-blue-500/20 shadow-[0_0_15px_theme(colors.blue.400)]"

  datatype Badge = BuzzingBadge | PairingBadge

  /** The tile background: a fixed colour, or a fully saturated half-light colour of the team's hue. */
  datatype Background = DefaultColor(css: string) | HueColor(hue: real)

  datatype Tile = Tile(
    classes: string,
    badge: Option<Badge>,
    ariaLabel: string,
    ariaPressed: bool,
    background: Background)

  /** The badge: buzzing wins over pairing. */
  function StatusBadge(isBuzzing: bool, isPairing: bool): (b: Option<Badge>)
    ensures b == Some(BuzzingBadge) <==> isBuzzing
    ensures b == Some(PairingBadge) <==> !isBuzzing && isPairing
    ensures b.None? <==> !isBuzzing && !isPairing
  {
    if isBuzzing then Some(BuzzingBadge) else if isPairing then Some(PairingBadge) else None
  }

  /** The status word of the accessible label, with the same priority as the badge. */
  function StatusWord(isBuzzing: bool, isPairing: bool): (w: string)
    ensures w == "buzzing" <==> isBuzzing
    ensures w == "pairing" <==> !isBuzzing && isPairing
    ensures w == "idle" <==> !isBuzzing && !isPairing
  {
    if isBuzzing then "buzzing" else if isPairing then "pairing" else "idle"
  }

  /** The class entries before falsy ones are dropped (`false` is written as the empty string). */
  function CandidateClasses(isBuzzing: bool, isPairing: bool, className: string): seq<string>
  {
    [BaseClasses, LayoutClasses, BorderClasses,
     if isBuzzing then BuzzingClasses else "",
     if isPairing then PairingClasses else "",
     className]
  }

  /** The entries that survive `filter(Boolean)`. */
  function ClassEntries(isBuzzing: bool, isPairing: bool, className: string): (r: seq<string>)
    ensures "" !in r
    ensures BaseClasses in r && LayoutClasses in r && BorderClasses in r
    ensures BuzzingClasses in r <==> isBuzzing || className == BuzzingClasses
    ensures PairingClasses in r <==> isPairing || className == PairingClasses
    ensures className != "" ==> className in r
  {
    Text.NonEmpty(CandidateClasses(isBuzzing, isPairing, className))
  }

  /** The tile colour: the default magenta without a team colour, otherwise the team's hue alone. */
  function TileBackground(team: Team): (b: Background)
    ensures b.DefaultColor? <==> team.color.None?
    ensures team.color.None? ==> b == DefaultColor("#c207a0")
    ensures team.color.Some? ==> b == HueColor(team.color.value.h)
  {
    match team.color
    case None => DefaultColor("#c207a0")
    case Some(c) => HueColor(c.h)
  }

  /** An optional flag that defaults to false: set only when given as true. */
  predicate IsSet(flag: Option<bool>)
  {
    flag.Some? && flag.value
  }

  /** The tile for `team`; an omitted flag is false and an omitted class name is empty. */
  function RenderTile(team: Team, isBuzzing: Option<bool>, isPairing: Option<bool>, className: Option<string>): (t: Tile)
    ensures t.badge == Some(BuzzingBadge) <==> IsSet(isBuzzing)
    ensures t.badge == Some(PairingBadge) <==> !IsSet(isBuzzing) && IsSet(isPairing)
    ensures t.badge.None? <==> !IsSet(isBuzzing) && !IsSet(isPairing)
    ensures t.ariaPressed <==> IsSet(isBuzzing)
    ensures var status := if IsSet(isBuzzing) then "buzzing" else if IsSet(isPairing) then "pairing" else "idle";
      t.ariaLabel == team.name + " is " + status + " with score " + Text.IntToString(team.score)
    ensures var entries := ClassEntries(isBuzzing.GetOr(false), isPairing.GetOr(false), className.GetOr(""));
      && t.classes == Text.JoinWords(entries)
      && (BuzzingClasses in entries <==> IsSet(isBuzzing) || className == Some(BuzzingClasses))
      && (PairingClasses in entries <==> IsSet(isPairing) || className == Some(PairingClasses))
    ensures team.color.None? ==> t.background == DefaultColor("#c207a0")
    ensures team.color.Some? ==> t.background == HueColor(team.color.value.h)
  {
    var buzzing := isBuzzing.GetOr(false);
    var pairing := isPairing.GetOr(false);
    Tile(Text.JoinWords(ClassEntries(buzzing, pairing, className.GetOr(""))),
         StatusBadge(buzzing, pairing),
         team.name + " is " + StatusWord(buzzing, pairing) + " with score " + Text.IntToString(team.score),
         buzzing,
         TileBackground(team))
  }

  /** A tile rendered without flags is idle: no badge, no buzzing or pairing classes. */
  lemma FlagsDefaultToFalse(team: Team)
    ensures var t := RenderTile(team, None, None, None);
      && t.badge.None?
      && !t.ariaPressed
      && BuzzingClasses !in ClassEntries(false, false, "")
      && PairingClasses !in ClassEntries(false, false, "")
  {
  }

  /** Only the hue of a colour matters: saturation and value never reach the background. */
  lemma BackgroundIgnoresSaturationAndValue(team: Team, c: Color, d: Color)
    requires c.h == d.h
    ensures TileBackground(team.(color := Some(c))) == TileBackground(team.(color := Some(d)))
  {
  }
}
