/** The preset panel: a list of named grid snapshots that the user saves under a
    name typed into an input box, loads back into the grid, and deletes. Every
    change of the list is written to local storage under one key. */
module Presets {
  import opened Wrappers
  import opened Text

  /** The grid the panel snapshots: rows of colour strings. */
  type GridData = seq<seq<string>>

  /** One stored preset, `{ name, data }`. */
  datatype Preset = Preset(name: string, data: GridData)

  /** Why a save request ended as it did; `DuplicateName` is the case that raises
      the "Preset name already exists" alert, `EmptyName` returns silently. */
  datatype SaveOutcome = EmptyName | DuplicateName | Saved

  /** Some stored preset's name equals `name` once both are lower-cased. */
  predicate NameExists(presets: seq<Preset>, name: string)
    ensures NameExists(presets, name) ==> presets != []
    ensures forall i :: 0 <= i < |presets| && presets[i].name == name ==> NameExists(presets, name)
  {
    exists i :: 0 <= i < |presets| && EqualIgnoringCase(presets[i].name, name)
  }

  /** The invariant saving keeps: every name is non-empty and trimmed, and no two
      names are equal ignoring case. */
  predicate NamesValid(presets: seq<Preset>) {
    (forall i :: 0 <= i < |presets| ==> presets[i].name != [] && IsTrimmed(presets[i].name)) &&
    (forall i, j :: 0 <= i < j < |presets| ==> !EqualIgnoringCase(presets[i].name, presets[j].name))
  }

  /** The checks `savePreset` makes before it appends: an input that trims to
      nothing is ignored, one whose trimmed form matches a stored name ignoring
      case is refused. */
  function SaveCheck(presets: seq<Preset>, input: string): (o: SaveOutcome)
    ensures o == EmptyName <==> forall k :: 0 <= k < |input| ==> IsWhiteSpace(input[k])
    ensures o == DuplicateName <==> Trim(input) != [] && NameExists(presets, Trim(input))
  {
    TrimEmptyIff(input);
    var trimmed := Trim(input);
    if trimmed == [] then EmptyName
    else if NameExists(presets, trimmed) then DuplicateName
    else Saved
  }

  /** The list after `savePreset`: the old list with `{ trimmed name, grid }`
      appended when the checks pass, the old list otherwise. */
  function SaveList(presets: seq<Preset>, input: string, grid: GridData): (r: seq<Preset>)
    ensures SaveCheck(presets, input) != Saved ==> r == presets
    ensures SaveCheck(presets, input) == Saved ==>
      |r| == |presets| + 1 && r[..|presets|] == presets &&
      r[|presets|] == Preset(Trim(input), grid)
  {
    if SaveCheck(presets, input) == Saved then presets + [Preset(Trim(input), grid)]
    else presets
  }

  /** `[...presets].splice(index, 1)` as JavaScript defines it: a negative index
      counts from the end (clamped at 0), an index at or past the end removes
      nothing. */
  function RemoveAt(presets: seq<Preset>, index: int): (r: seq<Preset>)
    ensures var start := if index < 0 then (if |presets| + index < 0 then 0 else |presets| + index)
                         else (if index < |presets| then index else |presets|);
      (start < |presets| ==> |r| == |presets| - 1) &&
      (start == |presets| ==> r == presets) &&
      (forall k :: 0 <= k < |r| ==> r[k] == presets[if k < start then k else k + 1])
  {
    var start := if index < 0 then (if |presets| + index < 0 then 0 else |presets| + index)
                 else (if index < |presets| then index else |presets|);
    if start < |presets| then presets[..start] + presets[start + 1..] else presets
  }

  /** Deleting the entry at a rendered index `i` removes exactly that entry and
      keeps the others in order. */
  lemma RemoveAtIndex(presets: seq<Preset>, i: int)
    requires 0 <= i < |presets|
    ensures |RemoveAt(presets, i)| == |presets| - 1
    ensures RemoveAt(presets, i) == presets[..i] + presets[i + 1..]
  {
  }

  /** Appending a preset whose name is non-empty, trimmed and new ignoring case
      keeps the invariant. */
  lemma AppendPreservesNames(presets: seq<Preset>, p: Preset)
    requires NamesValid(presets)
    requires p.name != [] && IsTrimmed(p.name) && !NameExists(presets, p.name)
    ensures NamesValid(presets + [p])
  {
  }

  /** A successful save keeps the invariant: the new name is non-empty, already
      trimmed, and clashes with no stored name. */
  lemma SavePreservesNames(presets: seq<Preset>, input: string, grid: GridData)
    ensures NamesValid(presets) ==> NamesValid(SaveList(presets, input, grid))
  {
    if NamesValid(presets) && SaveCheck(presets, input) == Saved {
      TrimIdempotent(input);
      AppendPreservesNames(presets, Preset(Trim(input), grid));
    }
  }

  /** Deleting keeps the invariant: the remaining names are a subsequence of the
      old ones. */
  lemma RemovePreservesNames(presets: seq<Preset>, index: int)
    ensures NamesValid(presets) ==> NamesValid(RemoveAt(presets, index))
  {
  }

  /** The duplicate test cannot tell apart two names that are equal ignoring
      case: if one is taken, so is the other. */
  lemma NameExistsIgnoresCase(presets: seq<Preset>, a: string, b: string)
    requires EqualIgnoringCase(a, b)
    ensures NameExists(presets, a) <==> NameExists(presets, b)
  {
  }

  /** Once a name is saved, any later input that trims to the same name ignoring
      case ("A", then " a ") is refused as a duplicate. */
  lemma SavedNameBlocksDuplicate(presets: seq<Preset>, input: string, grid: GridData, again: string)
    requires SaveCheck(presets, input) == Saved
    requires EqualIgnoringCase(Trim(again), Trim(input))
    ensures SaveCheck(SaveList(presets, input, grid), again) == DuplicateName
  {
    var r := SaveList(presets, input, grid);
    assert |Trim(again)| == |ToLower(Trim(again))| == |Trim(input)|;
    assert EqualIgnoringCase(r[|presets|].name, Trim(again));
  }

  /** The panel's state: the preset list, the text of the name input, and the
      grid it reads through `gridData` and writes through `setGridData`. */
  class PresetPanel {
    var presets: seq<Preset>
    var presetName: string
    var grid: GridData
    /** The list local storage yields when read back. */
    ghost var stored: seq<Preset>

    /** Storage always holds the in-memory list. */
    ghost predicate Valid()
      reads this
    {
      stored == presets
    }

    /** Mounting reads the stored list; a missing entry reads as the empty list. */
    constructor Mount(saved: Option<seq<Preset>>, gridData: GridData)
      ensures Valid()
      ensures presets == (if saved.Some? then saved.value else [])
      ensures presetName == [] && grid == gridData
    {
      presets := if saved.Some? then saved.value else [];
      stored := if saved.Some? then saved.value else [];
      presetName := [];
      grid := gridData;
    }

    /** Typing into the name input. */
    method SetPresetName(value: string)
      modifies this`presetName
      ensures presetName == value
    {
      presetName := value;
    }

    /** `savePreset`: append `{ trimmed name, grid }` when the name is new, write
        the list to storage and clear the input; otherwise change nothing. */
    method SavePreset() returns (outcome: SaveOutcome)
      requires Valid()
      modifies this`presets, this`presetName, this`stored
      ensures Valid()
      ensures outcome == SaveCheck(old(presets), old(presetName))
      ensures presets == SaveList(old(presets), old(presetName), grid)
      ensures presetName == if outcome == Saved then [] else old(presetName)
      ensures old(NamesValid(presets)) ==> NamesValid(presets)
    {
      SavePreservesNames(presets, presetName, grid);
      var trimmedName := Trim(presetName);
      if trimmedName == [] {
        return EmptyName;
      }
      var nameExists := NameExists(presets, trimmedName);
      if nameExists {
        return DuplicateName;
      }
      var updated := presets + [Preset(trimmedName, grid)];
      presets := updated;
      stored := updated;
      presetName := [];
      outcome := Saved;
    }

    /** `loadPreset`: the grid becomes the preset's stored data. Values are
        immutable here, so later edits of the grid cannot reach the preset. */
    method LoadPreset(preset: Preset)
      modifies this`grid
      ensures grid == preset.data
    {
      grid := preset.data;
    }

    /** `deletePreset`: splice one entry out of a copy of the list, keep the copy
        and write it to storage. */
    method DeletePreset(index: int)
      requires Valid()
      modifies this`presets, this`stored
      ensures Valid()
      ensures presets == RemoveAt(old(presets), index)
      ensures 0 <= index < |old(presets)| ==>
        presets == old(presets)[..index] + old(presets)[index + 1..]
      ensures old(NamesValid(presets)) ==> NamesValid(presets)
    {
      RemovePreservesNames(presets, index);
      if 0 <= index < |presets| {
        RemoveAtIndex(presets, index);
      }
      var updated := RemoveAt(presets, index);
      presets := updated;
      stored := updated;
    }
  }
}
