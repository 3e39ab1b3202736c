/**
 * The level picker (src/components/LevelDropdown.tsx): the label of each
 * level, the lock shown on a premium selection for a user who is not pro,
 * and the usage gate consulted before a premium level is chosen.
 */
module LevelDropdown {
  import opened Wrappers
  import opened Types

  /** `LEVEL_LABELS`: the text shown for each level. */
  function LevelLabel(l: Level): (text: string)
    ensures text != []
  {
    match l
    case Eli5 => "Like I'm 5"
    case Eli10 => "Like I'm 10"
    case Eli12 => "Like I'm 12"
    case Eli15 => "Like I'm 15"
    case Meme => "Meme Style"
    case Classic60 => "Classic (80s/90s)"
    case Gentle70 => "Gentle & Kind"
    case Warm80 => "Warm & Fuzzy"
  }

  /** The level a label names, read back from the text on the button. */
  function LabelLevel(text: string): Option<Level> {
    if text == "Like I'm 5" then Some(Eli5)
    else if text == "Like I'm 10" then Some(Eli10)
    else if text == "Like I'm 12" then Some(Eli12)
    else if text == "Like I'm 15" then Some(Eli15)
    else if text == "Meme Style" then Some(Meme)
    else if text == "Classic (80s/90s)" then Some(Classic60)
    else if text == "Gentle & Kind" then Some(Gentle70)
    else if text == "Warm & Fuzzy" then Some(Warm80)
    else None
  }

  /** Every label reads back as its own level. */
  lemma LabelRoundTrip(l: Level)
    ensures LabelLevel(LevelLabel(l)) == Some(l)
  {
  }

  /** No two levels share a label, so the label on the button names the selection. */
  lemma LabelsDistinct(l1: Level, l2: Level)
    requires l1 != l2
    ensures LevelLabel(l1) != LevelLabel(l2)
  {
    LabelRoundTrip(l1);
    LabelRoundTrip(l2);
  }

  /** Whether the lock icon is shown next to the selected level. */
  predicate Locked(isPro: bool, selected: Level) {
    !isPro && selected in PREMIUM_LEVELS
  }

  /** The lock is shown exactly to a user who is not pro, on a level that is not free. */
  lemma LockedRule(isPro: bool, selected: Level)
    ensures Locked(isPro, selected) <==> !isPro && selected !in FREE_LEVELS
  {
    LevelsPartition(selected);
  }

  /** The dropdown's own state. */
  class LevelMenu {
    var isOpen: bool

    constructor ()
      ensures !isOpen
    {
      isOpen := false;
    }

    /** The toggle button. */
    method Toggle()
      modifies this
      ensures isOpen == !old(isOpen)
    {
      isOpen := !isOpen;
    }

    /**
     * `handleSelect`, with the gate's answer as input. A free level is
     * chosen without asking the gate; a premium level asks it, and a refusal
     * chooses nothing and leaves the menu as it was. `chosen` is the
     * `onChange` call made, if any.
     */
    method HandleSelect(level: Level, allowed: bool) returns (consulted: bool, chosen: Option<Level>)
      modifies this
      ensures consulted <==> level in PREMIUM_LEVELS
      ensures chosen.Some? <==> !consulted || allowed
      ensures chosen.Some? ==> chosen.value == level && !isOpen
      ensures chosen.None? ==> isOpen == old(isOpen)
    {
      consulted := level in PREMIUM_LEVELS;
      if consulted && !allowed {
        return consulted, None;
      }
      chosen := Some(level);
      isOpen := false;
    }
  }
}
