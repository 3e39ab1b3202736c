/** The shared enumerations of the client: generation modes and explanation levels. */
module Types {
  import opened Wrappers

  /** A generation strategy. `Fast` is free; the other two are premium. */
  datatype Mode = Fast | Ensemble | TechnicalDepth

  /** An explanation style. */
  datatype Level = Eli5 | Eli10 | Eli12 | Eli15 | Meme | Classic60 | Gentle70 | Warm80

  /** The free levels, in their canonical order. */
  const FREE_LEVELS: seq<Level> := [Eli5, Eli10, Eli12, Eli15, Meme]

  /** The premium levels, in their canonical order. */
  const PREMIUM_LEVELS: seq<Level> := [Classic60, Gentle70, Warm80]

  /** The wire name of a mode. */
  function ModeName(m: Mode): string {
    match m
    case Fast => "fast"
    case Ensemble => "ensemble"
    case TechnicalDepth => "technical_depth"
  }

  /** The wire name of a level. */
  function LevelName(l: Level): string {
    match l
    case Eli5 => "eli5"
    case Eli10 => "eli10"
    case Eli12 => "eli12"
    case Eli15 => "eli15"
    case Meme => "meme"
    case Classic60 => "classic60"
    case Gentle70 => "gentle70"
    case Warm80 => "warm80"
  }

  /** The mode a wire name denotes, if any. */
  function ParseMode(s: string): (r: Option<Mode>)
    ensures r.Some? ==> ModeName(r.value) == s
    ensures forall m :: ModeName(m) == s ==> r == Some(m)
  {
    if s == "fast" then Some(Fast)
    else if s == "ensemble" then Some(Ensemble)
    else if s == "technical_depth" then Some(TechnicalDepth)
    else None
  }

  /** The level a wire name denotes, if any. */
  function ParseLevel(s: string): (r: Option<Level>)
    ensures r.Some? ==> LevelName(r.value) == s
    ensures forall l :: LevelName(l) == s ==> r == Some(l)
  {
    if s == "eli5" then Some(Eli5)
    else if s == "eli10" then Some(Eli10)
    else if s == "eli12" then Some(Eli12)
    else if s == "eli15" then Some(Eli15)
    else if s == "meme" then Some(Meme)
    else if s == "classic60" then Some(Classic60)
    else if s == "gentle70" then Some(Gentle70)
    else if s == "warm80" then Some(Warm80)
    else None
  }

  predicate IsPremiumLevel(l: Level) {
    l in PREMIUM_LEVELS
  }

  /**
   * The two level lists partition `Level`: every level is in exactly one of
   * them, and neither list repeats a level.
   */
  lemma LevelsPartition(l: Level)
    ensures l in FREE_LEVELS <==> l !in PREMIUM_LEVELS
    ensures |FREE_LEVELS| == 5 && |PREMIUM_LEVELS| == 3
    ensures forall i, j :: 0 <= i < j < |FREE_LEVELS| ==> FREE_LEVELS[i] != FREE_LEVELS[j]
    ensures forall i, j :: 0 <= i < j < |PREMIUM_LEVELS| ==> PREMIUM_LEVELS[i] != PREMIUM_LEVELS[j]
  {
  }

  /** Distinct levels have distinct wire names, and so do distinct modes. */
  lemma NamesInjective(l1: Level, l2: Level, m1: Mode, m2: Mode)
    ensures LevelName(l1) == LevelName(l2) ==> l1 == l2
    ensures ModeName(m1) == ModeName(m2) ==> m1 == m2
  {
    assert ParseLevel(LevelName(l1)) == Some(l1);
    assert ParseMode(ModeName(m1)) == Some(m1);
  }

  /** The wire names of the free levels, in order. */
  function FreeLevelNames(): (r: seq<string>)
    ensures |r| == |FREE_LEVELS| && forall i :: 0 <= i < |r| ==> r[i] == LevelName(FREE_LEVELS[i])
  {
    ["eli5", "eli10", "eli12", "eli15", "meme"]
  }

  /** The wire names of the premium levels, in order. */
  function PremiumLevelNames(): (r: seq<string>)
    ensures |r| == |PREMIUM_LEVELS| && forall i :: 0 <= i < |r| ==> r[i] == LevelName(PREMIUM_LEVELS[i])
  {
    ["classic60", "gentle70", "warm80"]
  }
}
