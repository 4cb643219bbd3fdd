/** The soundfont list of the synthesizer tab: validation of a dropped or
    chosen file, id allocation, selection, removal and the per-item
    configuration windows. */
module SoundfontList {
  import opened Base
  import opened Errors

  datatype Interpolator = Nearest | Linear

  /** Per-use loading options of a soundfont (bank/preset override and so on). */
  datatype SoundfontInitOptions = SoundfontInitOptions(
    bank: Option<nat>, preset: Option<nat>, linearRelease: bool, useEffects: bool, interpolator: Interpolator)

  datatype SFFormat = Sfz

  /** A soundfont reference; its identity in the render pipeline is `path`. */
  datatype SfListItem = SfListItem(
    id: nat, enabled: bool, selected: bool, format: SFFormat, path: Path, init: SoundfontInitOptions)

  datatype ConfigWindow = ConfigWindow(id: nat, visible: bool)

  datatype SfList = SfList(items: seq<SfListItem>, idCount: nat, windows: seq<ConfigWindow>)

  /** What the file system and the SFZ parser report about a path:
      existence, extension, and the parser's error message if it fails. */
  datatype SfzEnv = SfzEnv(
    isPresent: Path -> bool, extension: Path -> Option<string>, parseError: Path -> Option<string>)

  /** `EguiSFList::new`: the given items, no windows, and id allocation
      starting again from 0. */
  function NewList(items: seq<SfListItem>): (l: SfList)
    ensures l.items == items && l.idCount == 0 && l.windows == []
  {
    SfList(items, 0, [])
  }

  /** The item appended by a successful add: `defaults` stands for the
      synthesizer's default options that the struct update starts from. */
  function NewItem(id: nat, path: Path, defaults: SoundfontInitOptions): SfListItem
  {
    SfListItem(id, true, false, Sfz, path,
      defaults.(bank := Some(0), preset := Some(0), interpolator := Linear))
  }

  /** `add_item`: the outcome and the list afterwards. */
  function AddItem(l: SfList, path: Path, env: SfzEnv, defaults: SoundfontInitOptions)
    : (r: (Result<(), FileLoadError>, SfList))
    ensures !env.isPresent(path) ==> r.0 == Err(FileNotFound)
    ensures env.isPresent(path) && env.extension(path) != Some("sfz") ==> r.0 == Err(InvalidFormat)
    ensures env.isPresent(path) && env.extension(path) == Some("sfz") && env.parseError(path).Some? ==>
      r.0 == Err(Corrupt(env.parseError(path).value))
    ensures r.0.Err? ==> r.1 == l
    ensures r.0.Ok? <==> env.isPresent(path) && env.extension(path) == Some("sfz") && env.parseError(path).None?
    ensures r.0.Ok? ==> r.1 == l.(items := l.items + [NewItem(l.idCount, path, defaults)], idCount := l.idCount + 1)
    ensures r.0.Ok? ==> var it := r.1.items[|r.1.items| - 1];
      it.id == l.idCount && it.enabled && !it.selected && it.init.bank == Some(0) && it.init.preset == Some(0)
      && it.init.interpolator == Linear && it.path == path
  {
    if !env.isPresent(path) then (Err(FileNotFound), l)
    else match env.extension(path)
      case Some(ext) =>
        if ext == "sfz" then
          match env.parseError(path)
          case None =>
            (Ok(()), l.(items := l.items + [NewItem(l.idCount, path, defaults)], idCount := l.idCount + 1))
          case Some(msg) => (Err(Corrupt(msg)), l)
        else (Err(InvalidFormat), l)
      case None => (Err(InvalidFormat), l)
  }

  /** Adds each path in turn, as a drop of several files does. */
  function AddAll(l: SfList, paths: seq<Path>, env: SfzEnv, defaults: SoundfontInitOptions): SfList
    decreases |paths|
  {
    if |paths| == 0 then l
    else AddAll(AddItem(l, paths[0], env, defaults).1, paths[1..], env, defaults)
  }

  /** Every id handed out by successive adds is below the counter, and the
      ids handed out are strictly increasing in list order. */
  lemma {:induction false} AddAllIdsIncrease(l: SfList, paths: seq<Path>, env: SfzEnv, defaults: SoundfontInitOptions)
    ensures var l' := AddAll(l, paths, env, defaults);
      && l'.idCount >= l.idCount
      && |l'.items| >= |l.items| && l'.items[..|l.items|] == l.items
      && (forall i :: |l.items| <= i < |l'.items| ==> l.idCount <= l'.items[i].id < l'.idCount)
      && (forall i, j :: |l.items| <= i < j < |l'.items| ==> l'.items[i].id < l'.items[j].id)
    decreases |paths|
  {
    if |paths| > 0 {
      var m := AddItem(l, paths[0], env, defaults).1;
      AddAllIdsIncrease(m, paths[1..], env, defaults);
    }
  }

  function SelectAll(l: SfList): (r: SfList)
    ensures |r.items| == |l.items|
    ensures forall i :: 0 <= i < |l.items| ==> r.items[i] == l.items[i].(selected := true)
    ensures r.idCount == l.idCount && r.windows == l.windows
  {
    l.(items := seq(|l.items|, i requires 0 <= i < |l.items| => l.items[i].(selected := true)))
  }

  function IsUnselected(item: SfListItem): bool
  {
    !item.selected
  }

  /** Drops the selected items and closes every configuration window. */
  function RemoveSelected(l: SfList): (r: SfList)
    ensures r.items == Filter(l.items, IsUnselected)
    ensures forall i :: 0 <= i < |r.items| ==> !r.items[i].selected
    ensures forall i :: 0 <= i < |l.items| && !l.items[i].selected ==> l.items[i] in r.items
    ensures forall x :: multiset(r.items)[x] == if x.selected then 0 else multiset(l.items)[x]
    ensures r.windows == [] && r.idCount == l.idCount
  {
    FilterCounts(l.items, IsUnselected);
    l.(items := Filter(l.items, IsUnselected), windows := [])
  }

  /** Removal keeps the order: items removed from in two parts are the two
      parts removed from, one after the other. */
  lemma RemoveSelectedKeepsOrder(l: SfList, a: seq<SfListItem>, b: seq<SfListItem>)
    ensures RemoveSelected(l.(items := a + b)).items == RemoveSelected(l.(items := a)).items + RemoveSelected(l.(items := b)).items
  {
    FilterConcat(a, b, IsUnselected);
  }

  /** Removal works item by item: a single item stays exactly when it is
      unselected. */
  lemma RemoveSelectedSingle(l: SfList, x: SfListItem)
    ensures RemoveSelected(l.(items := [x])).items == if x.selected then [] else [x]
  {
    FilterSingle(x, IsUnselected);
  }

  function Clear(l: SfList): (r: SfList)
    ensures r.items == [] && r.windows == [] && r.idCount == l.idCount
  {
    l.(items := [], windows := [])
  }

  lemma RemoveSelectedIdempotent(l: SfList)
    ensures RemoveSelected(RemoveSelected(l)) == RemoveSelected(l)
  {
    FilterIdempotent(l.items, IsUnselected);
  }

  /** Selecting everything and then removing the selection empties the list. */
  lemma SelectAllThenRemoveEmpties(l: SfList)
    ensures RemoveSelected(SelectAll(l)).items == []
  {
    FilterNone(SelectAll(l).items, IsUnselected);
  }

  predicate HasWindow(ws: seq<ConfigWindow>, id: nat)
  {
    exists k :: 0 <= k < |ws| && ws[k].id == id
  }

  /** Double-clicking an item opens its configuration window unless one with
      that id is already open. */
  function OpenConfigWindow(l: SfList, id: nat): (r: SfList)
    ensures HasWindow(l.windows, id) ==> r == l
    ensures !HasWindow(l.windows, id) ==> r.windows == l.windows + [ConfigWindow(id, true)]
    ensures r.items == l.items && r.idCount == l.idCount
  {
    if HasWindow(l.windows, id) then l else l.(windows := l.windows + [ConfigWindow(id, true)])
  }

  function IsVisible(w: ConfigWindow): bool
  {
    w.visible
  }

  /** Closed windows are pruned at the start of each frame. */
  function PruneWindows(l: SfList): (r: SfList)
    ensures r.windows == Filter(l.windows, IsVisible)
    ensures forall k :: 0 <= k < |r.windows| ==> r.windows[k].visible
    ensures r.items == l.items && r.idCount == l.idCount
  {
    l.(windows := Filter(l.windows, IsVisible))
  }

  /** Windows that were open once per id stay unique through opening and pruning. */
  predicate UniqueWindowIds(ws: seq<ConfigWindow>)
  {
    forall a, b :: 0 <= a < b < |ws| ==> ws[a].id != ws[b].id
  }

  lemma OpenKeepsWindowIdsUnique(l: SfList, id: nat)
    requires UniqueWindowIds(l.windows)
    ensures UniqueWindowIds(OpenConfigWindow(l, id).windows)
  {
  }
}
