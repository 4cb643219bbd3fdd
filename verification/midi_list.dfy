/** The MIDI list of the render tab: validation of a dropped or chosen file,
    recursive folder import, selection, removal, and the overall progress bar. */
module MidiList {
  import opened Base
  import opened Errors
  import opened MidiPool

  datatype ListItem = ListItem(selected: bool, path: Path, filesize: nat, length: real, noteCount: nat)

  /** What the MIDI reader reports for a file it opened: duration in seconds,
      size in bytes and note count. */
  datatype MidiInfo = MidiInfo(length: real, filesize: nat, noteCount: nat)

  /** The file system and the MIDI reader: existence, extension, and the
      outcome of opening a file. */
  datatype MidiEnv = MidiEnv(
    isPresent: Path -> bool, extension: Path -> Option<string>, open: Path -> Result<MidiInfo, MIDILoadError>)

  /** The fixed detail message of each way the MIDI reader can fail. */
  function LoadErrorDetail(e: MIDILoadError): (s: string)
    ensures e.CorruptChunks? ==> s == "Corrupt chunks"
    ensures e.FilesystemError? ==> s == "Filesystem error: " + e.detail
    ensures e.FileTooBig? ==> s == "MIDI file too big"
  {
    match e
    case CorruptChunks => "Corrupt chunks"
    case FilesystemError(d) => "Filesystem error: " + d
    case FileTooBig => "MIDI file too big"
  }

  /** The three fixed details are told apart by their first letter and the
      filesystem detail keeps the reader's message. */
  lemma LoadErrorDetailInjective(a: MIDILoadError, b: MIDILoadError)
    requires LoadErrorDetail(a) == LoadErrorDetail(b)
    ensures a == b
  {
    var s := LoadErrorDetail(a);
    assert s[0] == LoadErrorDetail(b)[0];
    if a.FilesystemError? && b.FilesystemError? {
      var p := "Filesystem error: ";
      assert s[|p|..] == a.detail;
      assert LoadErrorDetail(b)[|p|..] == b.detail;
    }
  }

  function ItemFor(path: Path, info: MidiInfo): ListItem
  {
    ListItem(false, path, info.filesize, info.length, info.noteCount)
  }

  /** `add_item`: the outcome and the list afterwards. */
  function AddItem(l: seq<ListItem>, path: Path, env: MidiEnv): (r: (Result<(), FileLoadError>, seq<ListItem>))
    ensures !env.isPresent(path) ==> r.0 == Err(FileNotFound)
    ensures env.isPresent(path) && env.extension(path) != Some("mid") ==> r.0 == Err(InvalidFormat)
    ensures env.isPresent(path) && env.extension(path) == Some("mid") && env.open(path).Err? ==>
      r.0 == Err(Corrupt(LoadErrorDetail(env.open(path).error)))
    ensures r.0.Ok? <==> env.isPresent(path) && env.extension(path) == Some("mid") && env.open(path).Ok?
    ensures r.0.Err? ==> r.1 == l
    ensures r.0.Ok? ==> r.1 == l + [ItemFor(path, env.open(path).value)] && !r.1[|l|].selected
  {
    if !env.isPresent(path) then (Err(FileNotFound), l)
    else match env.extension(path)
      case None => (Err(InvalidFormat), l)
      case Some(ext) =>
        if ext != "mid" then (Err(InvalidFormat), l)
        else match env.open(path)
          case Ok(info) => (Ok(()), l + [ItemFor(path, info)])
          case Err(e) => (Err(Corrupt(LoadErrorDetail(e))), l)
  }

  /** A directory as `read_dir` sees it: a readable listing, or unreadable. */
  datatype DirTree = Listing(entries: seq<DirEntry>) | Unreadable
  datatype DirEntry = FileEntry(path: Path) | SubDir(path: Path, tree: DirTree)

  /** The loop of `add_folder` over a listing from entry i on: `res` is the
      outcome of the last attempt so far. A subdirectory's outcome replaces
      it; a file is tried only when its extension is "mid". */
  function AddEntries(l: seq<ListItem>, t: DirTree, i: nat, res: Result<(), FileLoadError>, env: MidiEnv)
    : (r: (Result<(), FileLoadError>, seq<ListItem>))
    requires t.Listing? && i <= |t.entries|
    decreases t, 0, |t.entries| - i
  {
    if i == |t.entries| then (res, l)
    else match t.entries[i]
      case FileEntry(p) =>
        if env.extension(p) == Some("mid") then
          var a := AddItem(l, p, env);
          AddEntries(a.1, t, i + 1, a.0, env)
        else AddEntries(l, t, i + 1, res, env)
      case SubDir(_, sub) =>
        var a := AddFolder(l, sub, env);
        AddEntries(a.1, t, i + 1, a.0, env)
  }

  /** `add_folder`: an unreadable directory gives FileNotFound; otherwise the
      outcome of the last attempt, or Ok when nothing was attempted. */
  function AddFolder(l: seq<ListItem>, t: DirTree, env: MidiEnv): (r: (Result<(), FileLoadError>, seq<ListItem>))
    ensures t.Unreadable? ==> r == (Err(FileNotFound), l)
    decreases t, 1
  {
    match t
    case Unreadable => (Err(FileNotFound), l)
    case Listing(_) => AddEntries(l, t, 0, Ok(()), env)
  }

  /** A file path listed somewhere in a tree. */
  predicate InTree(p: Path, t: DirTree)
    decreases t, 1
  {
    t.Listing? && InEntries(p, t, 0)
  }

  /** A file path listed in a listing from entry i on, or below it. */
  predicate InEntries(p: Path, t: DirTree, i: nat)
    requires t.Listing? && i <= |t.entries|
    decreases t, 0, |t.entries| - i
  {
    i < |t.entries| &&
    ((match t.entries[i] case FileEntry(q) => q == p case SubDir(_, sub) => InTree(p, sub)) || InEntries(p, t, i + 1))
  }

  /** Folder import only appends, and everything it appends is an unselected
      item for a file of the tree whose extension is "mid". */
  lemma {:induction false} AddEntriesAppendsMidis(
    l: seq<ListItem>, t: DirTree, i: nat, res: Result<(), FileLoadError>, env: MidiEnv)
    requires t.Listing? && i <= |t.entries|
    ensures var r := AddEntries(l, t, i, res, env);
      && |r.1| >= |l| && r.1[..|l|] == l
      && forall k :: |l| <= k < |r.1| ==>
           env.extension(r.1[k].path) == Some("mid") && InEntries(r.1[k].path, t, i) && !r.1[k].selected
    decreases t, 0, |t.entries| - i
  {
    if i < |t.entries| {
      match t.entries[i]
      case FileEntry(p) =>
        if env.extension(p) == Some("mid") {
          var a := AddItem(l, p, env);
          AddEntriesAppendsMidis(a.1, t, i + 1, a.0, env);
        } else {
          AddEntriesAppendsMidis(l, t, i + 1, res, env);
        }
      case SubDir(_, sub) =>
        var a := AddFolder(l, sub, env);
        AddFolderAppendsMidis(l, sub, env);
        AddEntriesAppendsMidis(a.1, t, i + 1, a.0, env);
    }
  }

  lemma {:induction false} AddFolderAppendsMidis(l: seq<ListItem>, t: DirTree, env: MidiEnv)
    ensures var r := AddFolder(l, t, env);
      && |r.1| >= |l| && r.1[..|l|] == l
      && forall k :: |l| <= k < |r.1| ==>
           env.extension(r.1[k].path) == Some("mid") && InTree(r.1[k].path, t) && !r.1[k].selected
    decreases t, 1
  {
    if t.Listing? {
      AddEntriesAppendsMidis(l, t, 0, Ok(()), env);
    }
  }

  function SelectAll(l: seq<ListItem>): (r: seq<ListItem>)
    ensures |r| == |l|
    ensures forall i :: 0 <= i < |l| ==> r[i] == l[i].(selected := true)
  {
    seq(|l|, i requires 0 <= i < |l| => l[i].(selected := true))
  }

  function IsUnselected(item: ListItem): bool
  {
    !item.selected
  }

  /** `remove_selected_items`. */
  function RemoveSelected(l: seq<ListItem>): (r: seq<ListItem>)
    ensures r == Filter(l, IsUnselected)
    ensures forall i :: 0 <= i < |r| ==> !r[i].selected
    ensures forall i :: 0 <= i < |l| && !l[i].selected ==> l[i] in r
    ensures forall x :: multiset(r)[x] == if x.selected then 0 else multiset(l)[x]
  {
    FilterCounts(l, IsUnselected);
    Filter(l, IsUnselected)
  }

  /** Removal keeps the order: the list removed from in two parts is the two
      parts removed from, one after the other. */
  lemma RemoveSelectedKeepsOrder(a: seq<ListItem>, b: seq<ListItem>)
    ensures RemoveSelected(a + b) == RemoveSelected(a) + RemoveSelected(b)
  {
    FilterConcat(a, b, IsUnselected);
  }

  /** Removal works item by item: a single item stays exactly when it is
      unselected. */
  lemma RemoveSelectedSingle(x: ListItem)
    ensures RemoveSelected([x]) == if x.selected then [] else [x]
  {
    FilterSingle(x, IsUnselected);
  }

  lemma RemoveSelectedIdempotent(l: seq<ListItem>)
    ensures RemoveSelected(RemoveSelected(l)) == RemoveSelected(l)
  {
    FilterIdempotent(l, IsUnselected);
  }

  /** Selecting everything and removing the selection empties the list, as `clear` does. */
  lemma SelectAllThenRemoveEmpties(l: seq<ListItem>)
    ensures RemoveSelected(SelectAll(l)) == []
  {
    FilterNone(SelectAll(l), IsUnselected);
  }

  /** Entry i of the stats can be read against the list: a started file's
      share indexes the list at i, a file not started does not. */
  predicate InList(stats: seq<Option<RenderStats>>, l: seq<ListItem>, i: nat)
    requires i < |stats|
  {
    stats[i].None? || i < |l|
  }

  /** The progress bar's share for stats entry i: the rendered time over the
      file's length, or 0 for a file not started. `None` stands for a
      non-finite quotient (a zero-length file). */
  function Share(stats: seq<Option<RenderStats>>, l: seq<ListItem>, i: nat): Option<real>
    requires i < |stats| && InList(stats, l, i)
  {
    match stats[i]
    case None => Some(0.0)
    case Some(p) => if l[i].length == 0.0 then None else Some(p.time / l[i].length)
  }

  /** The first n shares can be read and are finite numbers. */
  predicate FiniteUpTo(stats: seq<Option<RenderStats>>, l: seq<ListItem>, n: nat)
    requires n <= |stats|
  {
    forall i :: 0 <= i < n ==> InList(stats, l, i) && Share(stats, l, i).Some?
  }

  predicate AllFinite(stats: seq<Option<RenderStats>>, l: seq<ListItem>)
  {
    FiniteUpTo(stats, l, |stats|)
  }

  /** The sum of the first n shares. */
  function ShareSum(stats: seq<Option<RenderStats>>, l: seq<ListItem>, n: nat): real
    requires n <= |stats| && FiniteUpTo(stats, l, n)
  {
    if n == 0 then 0.0 else ShareSum(stats, l, n - 1) + Share(stats, l, n - 1).value
  }

  /** `get_total_progress`: the mean share over the stats entries. The stats
      come from the running pool, one entry per job, while the list can
      shrink under it (Delete and Ctrl+A in `show`); a started job whose
      index is past the end of the list makes `self.list[i]` panic. The
      result is `None` where the floating-point result is not a finite
      number: with no stats at all (0 / 0) or when a started file has
      length 0. */
  method TotalProgress(stats: Option<seq<Option<RenderStats>>>, l: seq<ListItem>)
    returns (panics: bool, r: Option<real>)
    ensures panics <==> stats.Some? && exists i :: |l| <= i < |stats.value| && stats.value[i].Some?
    ensures panics ==> r.None?
    ensures !panics ==> (r.Some? <==> stats.Some? && |stats.value| > 0 && AllFinite(stats.value, l))
    ensures r.Some? ==>
      && AllFinite(stats.value, l) && FiniteUpTo(stats.value, l, |stats.value|)
      && r.value * (|stats.value| as real) == ShareSum(stats.value, l, |stats.value|)
  {
    if stats.None? {
      return false, None;
    }
    var s := stats.value;
    var out := 0.0;
    var finite := true;
    for i := 0 to |s|
      invariant forall k :: |l| <= k < i ==> s[k].None?
      invariant finite ==> FiniteUpTo(s, l, i) && out == ShareSum(s, l, i)
      invariant !finite ==> !AllFinite(s, l)
    {
      if !InList(s, l, i) {
        return true, None;
      }
      if finite {
        var sh := Share(s, l, i);
        if sh.None? {
          finite := false;
        } else {
          out := out + sh.value;
        }
      }
    }
    if !finite || |s| == 0 {
      return false, None;
    }
    panics, r := false, Some(out / (|s| as real));
  }

  /** Progress stays within [0, 1] while no file has been rendered past its length. */
  lemma {:induction false} ShareSumBounded(stats: seq<Option<RenderStats>>, l: seq<ListItem>, n: nat)
    requires n <= |stats| && FiniteUpTo(stats, l, n)
    requires forall i :: 0 <= i < |stats| && i < |l| && stats[i].Some? ==> 0.0 <= stats[i].value.time <= l[i].length
    ensures 0.0 <= ShareSum(stats, l, n) <= n as real
  {
    if n > 0 {
      ShareSumBounded(stats, l, n - 1);
      var i := n - 1;
      if stats[i].Some? {
        assert InList(stats, l, i);
        var t := stats[i].value.time;
        var len := l[i].length;
        assert Share(stats, l, i).Some?;
        assert len != 0.0 && 0.0 <= t <= len;
        var q := t / len;
        assert q * len == t;
        assert 0.0 < len;
        assert 0.0 <= q <= 1.0;
      }
    }
  }
}
