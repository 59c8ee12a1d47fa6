/**
 * The workspace preferences kept in the browser's local storage under one
 * key: the defaults, how a stored value is read back over them, and saving.
 * `JSON.parse` and `JSON.stringify` are parameters.
 */
module Prefs {
  import opened Wrappers
  import opened Workspace

  const StorageKey := "adpower.workspace.prefs.v1"

  const DefaultExportSettings := ExportSettings(true, true, true, false, Png, ByPlatform)

  /** `defaultPreferences`. */
  const DefaultPreferences := WorkspacePreferences(Dashboard, Custom, DefaultExportSettings)

  /** A stored object read as `Partial<WorkspacePreferences>`: `None` is a key it lacks or holds `null`/`undefined`. */
  datatype StoredPreferences = StoredPreferences(
    lastView: Option<AppView>, generationMode: Option<GenerationMode>, exportSettings: Option<ExportSettingsPatch>)

  /** What `JSON.parse` makes of the stored text: it throws, it gives `null` (reading a key of which throws), or a value. */
  datatype Parsed = Throws | Null | Value(stored: StoredPreferences)

  /** A patch with none of the keys: an absent `exportSettings` spreads nothing. */
  const NoPatch := ExportSettingsPatch(None, None, None, None, None, None)

  /** The preferences a stored object gives over the defaults. */
  function FromStored(stored: StoredPreferences): (p: WorkspacePreferences)
    ensures p.lastView == stored.lastView.GetOr(DefaultPreferences.lastView)
    ensures p.generationMode == stored.generationMode.GetOr(DefaultPreferences.generationMode)
    ensures p.exportSettings == MergeExportSettings(DefaultExportSettings, stored.exportSettings.GetOr(NoPatch))
  {
    WorkspacePreferences(
      stored.lastView.GetOr(DefaultPreferences.lastView),
      stored.generationMode.GetOr(DefaultPreferences.generationMode),
      MergeExportSettings(DefaultExportSettings, stored.exportSettings.GetOr(NoPatch)))
  }

  /**
   * `loadWorkspacePreferences`: the defaults without a window, when reading
   * the storage fails, when nothing or an empty text is stored and when the
   * text does not parse to an object; otherwise the stored object over them.
   */
  function LoadPreferences(hasWindow: bool, raw: CallOutcome<Option<string>>, parse: string -> Parsed): (p: WorkspacePreferences)
    ensures !hasWindow || raw.Fail? ==> p == DefaultPreferences
    ensures raw == Ok(None) || raw == Ok(Some("")) ==> p == DefaultPreferences
    ensures hasWindow && raw.Ok? && raw.result.Some? && raw.result.value != "" ==>
      p == (match parse(raw.result.value)
            case Value(stored) => FromStored(stored)
            case _ => DefaultPreferences)
  {
    if !hasWindow then DefaultPreferences
    else match raw
      case Fail(_) => DefaultPreferences
      case Ok(text) =>
        if text.None? || text.value == "" then DefaultPreferences
        else match parse(text.value)
          case Value(stored) => FromStored(stored)
          case _ => DefaultPreferences
  }

  /** Every stored key of `exportSettings` wins; every other key keeps its default. */
  lemma StoredKeysWin(stored: StoredPreferences)
    requires stored.exportSettings.Some?
    ensures var merged := FromStored(stored).exportSettings;
      var patch := stored.exportSettings.value;
      (patch.meta.Some? ==> merged.meta == patch.meta.value) && (patch.meta.None? ==> merged.meta)
      && (patch.instagram.Some? ==> merged.instagram == patch.instagram.value) && (patch.instagram.None? ==> merged.instagram)
      && (patch.google.Some? ==> merged.google == patch.google.value) && (patch.google.None? ==> merged.google)
      && (patch.linkedIn.Some? ==> merged.linkedIn == patch.linkedIn.value) && (patch.linkedIn.None? ==> !merged.linkedIn)
      && (patch.format.Some? ==> merged.format == patch.format.value) && (patch.format.None? ==> merged.format == Png)
      && (patch.grouping.Some? ==> merged.grouping == patch.grouping.value) && (patch.grouping.None? ==> merged.grouping == ByPlatform)
  {
  }

  /** An object with no keys reads as the defaults. */
  lemma EmptyObjectIsDefault()
    ensures FromStored(StoredPreferences(None, None, None)) == DefaultPreferences
  {
  }

  /** The object `JSON.stringify` writes for a set of preferences: it has every key. */
  function Stored(p: WorkspacePreferences): (s: StoredPreferences)
    ensures s.lastView == Some(p.lastView) && s.generationMode == Some(p.generationMode)
    ensures s.exportSettings.Some?
  {
    var e := p.exportSettings;
    StoredPreferences(Some(p.lastView), Some(p.generationMode),
      Some(ExportSettingsPatch(Some(e.meta), Some(e.instagram), Some(e.google), Some(e.linkedIn), Some(e.format), Some(e.grouping))))
  }

  /** A complete stored object gives back exactly the preferences it was written from. */
  lemma FromStoredRoundTrip(p: WorkspacePreferences)
    ensures FromStored(Stored(p)) == p
  {
  }

  /** `JSON.parse` reads back what `JSON.stringify` wrote, and a written object is never the empty text. */
  ghost predicate Faithful(stringify: WorkspacePreferences -> string, parse: string -> Parsed) {
    forall p :: stringify(p) != "" && parse(stringify(p)) == Value(Stored(p))
  }

  /** The browser's local storage as this module uses it; `available` is whether a window exists. */
  class PreferenceStore {
    const available: bool
    var items: map<string, string>

    constructor(available: bool)
      ensures this.available == available && items == map[]
    {
      this.available := available;
      items := map[];
    }

    /** `window.localStorage.getItem(STORAGE_KEY)`. */
    function Raw(): (raw: CallOutcome<Option<string>>)
      reads this
      ensures raw.Ok?
      ensures StorageKey in items ==> raw == Ok(Some(items[StorageKey]))
      ensures StorageKey !in items ==> raw == Ok(None)
    {
      Ok(if StorageKey in items then Some(items[StorageKey]) else None)
    }

    /** `loadWorkspacePreferences` on this storage: the defaults unless a saved text parses to an object. */
    function Load(parse: string -> Parsed): (p: WorkspacePreferences)
      reads this
      ensures !available || StorageKey !in items ==> p == DefaultPreferences
      ensures available && StorageKey in items && items[StorageKey] != "" ==>
        p == (match parse(items[StorageKey])
              case Value(stored) => FromStored(stored)
              case _ => DefaultPreferences)
    {
      LoadPreferences(available, Raw(), parse)
    }

    /** `saveWorkspacePreferences`: nothing without a window; a write that fails (`writeFails`) is ignored. */
    method Save(preferences: WorkspacePreferences, stringify: WorkspacePreferences -> string, writeFails: bool)
      modifies this
      ensures available && !writeFails ==> items == old(items)[StorageKey := stringify(preferences)]
      ensures !available || writeFails ==> items == old(items)
    {
      if !available {
        return;
      }
      if !writeFails {
        items := items[StorageKey := stringify(preferences)];
      }
    }
  }

  /** Whatever was saved last is what the next load gives, when the write went through. */
  lemma LoadAfterSave(store: PreferenceStore, p: WorkspacePreferences,
                      stringify: WorkspacePreferences -> string, parse: string -> Parsed)
    requires store.available && Faithful(stringify, parse)
    requires StorageKey in store.items && store.items[StorageKey] == stringify(p)
    ensures store.Load(parse) == p
  {
    assert stringify(p) != "" && parse(stringify(p)) == Value(Stored(p));
    FromStoredRoundTrip(p);
  }
}
