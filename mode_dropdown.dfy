/**
 * The mode picker (src/components/ModeDropdown.tsx): the table of modes,
 * the entry shown for the selected mode (the first one when the selection
 * names no mode), and the usage gate consulted before a premium mode is
 * chosen.
 */
module ModeDropdown {
  import opened Wrappers
  import opened Types

  /** One row of `MODES` (its icon, description and colour are presentation). */
  datatype ModeEntry = ModeEntry(id: Mode, title: string, premium: bool)

  /** `MODES`, in menu order. */
  const MODES: seq<ModeEntry> := [
    ModeEntry(Fast, "Fast", false),
    ModeEntry(Ensemble, "Ensemble", true),
    ModeEntry(TechnicalDepth, "Technical Depth", true)
  ]

  /** `entries.find(m => m.id === id)` with the id as a wire name. */
  function FindMode(entries: seq<ModeEntry>, id: string): (r: Option<ModeEntry>)
    ensures r.Some? ==> r.value in entries && ModeName(r.value.id) == id
    ensures r.None? ==> forall e :: e in entries ==> ModeName(e.id) != id
  {
    if entries == [] then None
    else if ModeName(entries[0].id) == id then Some(entries[0])
    else FindMode(entries[1..], id)
  }

  /** The table lists every mode once, and exactly `Fast` is free. */
  lemma ModesTable(m: Mode)
    ensures FindMode(MODES, ModeName(m)).Some?
    ensures FindMode(MODES, ModeName(m)).value.id == m
    ensures FindMode(MODES, ModeName(m)).value.premium <==> m != Fast
    ensures forall i, j :: 0 <= i < j < |MODES| ==> MODES[i].id != MODES[j].id
  {
    assert MODES[0].id == Fast && MODES[1].id == Ensemble && MODES[2].id == TechnicalDepth;
    var r := FindMode(MODES, ModeName(m));
    assert ModeName(m) == ModeName(MODES[0].id) || ModeName(m) == ModeName(MODES[1].id)
      || ModeName(m) == ModeName(MODES[2].id);
    NamesInjective(Eli5, Eli5, r.value.id, m);
  }

  /** `selectedMode`: the row of the selected mode, or the first row when the selection names none. */
  function SelectedEntry(selected: string): ModeEntry {
    var found := FindMode(MODES, selected);
    if found.Some? then found.value else MODES[0]
  }

  /** A selection that names no mode is shown as `Fast`; one that does is shown as itself. */
  lemma SelectedFallback(selected: string)
    ensures ParseMode(selected).None? ==> SelectedEntry(selected) == ModeEntry(Fast, "Fast", false)
    ensures ParseMode(selected).Some? ==> SelectedEntry(selected).id == ParseMode(selected).value
  {
    if ParseMode(selected).Some? {
      ModesTable(ParseMode(selected).value);
    }
  }

  /** The dropdown's own state. */
  class ModeMenu {
    var isOpen: bool

    constructor ()
      ensures !isOpen
    {
      isOpen := false;
    }

    /**
     * `handleSelect`, with the gate's answer as input. Picking the mode
     * already selected only closes the menu; a premium mode asks the gate,
     * and a refusal changes nothing; otherwise the mode is chosen and the
     * menu closes. `chosen` is the `onChange` call made, if any.
     */
    method HandleSelect(modeId: Mode, selected: string, allowed: bool) returns (consulted: bool, chosen: Option<Mode>)
      modifies this
      ensures ModeName(modeId) == selected ==> !consulted && chosen.None? && !isOpen
      ensures ModeName(modeId) != selected ==> (consulted <==> modeId != Fast)
      ensures ModeName(modeId) != selected && consulted && !allowed ==> chosen.None? && isOpen == old(isOpen)
      ensures ModeName(modeId) != selected && (!consulted || allowed) ==> chosen == Some(modeId) && !isOpen
    {
      if ModeName(modeId) == selected {
        isOpen := false;
        return false, None;
      }
      var entry := FindMode(MODES, ModeName(modeId));
      ModesTable(modeId);
      consulted := entry.Some? && entry.value.premium;
      if consulted && !allowed {
        return consulted, None;
      }
      chosen := Some(modeId);
      isOpen := false;
    }
  }
}
