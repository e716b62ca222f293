/** Finding the work: every input directory is walked recursively, the
    regular files whose extension is wanted (or that have none) are kept,
    each kept file becomes one item per track of its CUE sheet (or one
    item when it has none), and all items are sorted by the natural order
    of their base names and numbered. */
module Files {
  import opened Wrappers
  import opened Text
  import Paths
  import opened Fs
  import Cue
  import opened Externals
  import opened Convert

  // ---------------------------------------------------------------------
  // One file

  /** The extension filter: a file with an extension is kept when its
      lower-cased extension is listed; a file without one is always kept. */
  predicate Kept(path: string, exts: seq<string>) {
    match Paths.Extension(path)
    case None => true
    case Some(ext) => Lower(ext) in exts
  }

  /** The items of one kept file: one per CUE track, in the sheet's order,
      or a single item without CUE data; all with the file's path and
      stem, and not yet numbered. */
  function FileItems(path: string, basename: string, infos: seq<Cue.CueInfo>): (r: seq<Item>)
    ensures |r| == if infos == [] then 1 else |infos|
    ensures forall k :: 0 <= k < |r| ==>
      r[k].filename == path && r[k].basename == basename && r[k].index == 0 && r[k].total == 0
    ensures infos == [] ==> r[0].cue.None?
    ensures forall k :: 0 <= k < |infos| ==> r[k].cue == Some(infos[k])
  {
    if infos == [] then [Item(path, basename, 0, 0, None)]
    else seq(|infos|, k requires 0 <= k < |infos| => Item(path, basename, 0, 0, Some(infos[k])))
  }

  /** What every collected item satisfies: it is a kept file, its base
      name is the stem of its path, and it is not numbered yet. */
  predicate Collected(item: Item, exts: seq<string>) {
    Kept(item.filename, exts) && item.basename == Paths.Stem(item.filename) && item.index == 0 && item.total == 0
  }

  // ---------------------------------------------------------------------
  // The walk, as a specification

  /** The items of the entry at position i of a listing of dir: nothing for
      an entry or file type that cannot be read or for anything but a
      file or a directory; the walk of a subdirectory; the items of a
      kept file. */
  function EntryItems(dir: string, listing: Listing, i: nat, exts: seq<string>, read: string -> Cue.SheetSource): (r: seq<Item>)
    requires listing.Listing? && i < |listing.entries|
    ensures forall k :: 0 <= k < |r| ==> Collected(r[k], exts)
    decreases listing, 0
  {
    match listing.entries[i]
    case BadEntry => []
    case DirEntry(name, kind) =>
      var path := Paths.JoinPath(dir, name);
      match kind
      case Directory(sub) => if sub.Listing? then ItemsFrom(path, sub, 0, exts, read) else []
      case RegularFile(_) => FileEntryItems(path, exts, read)
      case _ => []
  }

  /** The items of a regular file: none unless it is kept, and otherwise
      one per track of its CUE sheet, or one for the whole file. */
  function FileEntryItems(path: string, exts: seq<string>, read: string -> Cue.SheetSource): (r: seq<Item>)
    ensures forall k :: 0 <= k < |r| ==> Collected(r[k], exts)
  {
    if Kept(path, exts) then FileItems(path, Paths.Stem(path), Cue.CueInfoFor(path, read).GetOr([])) else []
  }

  /** The items of the entries from position i on, in listing order. */
  function ItemsFrom(dir: string, listing: Listing, i: nat, exts: seq<string>, read: string -> Cue.SheetSource): (r: seq<Item>)
    requires listing.Listing? && i <= |listing.entries|
    ensures forall k :: 0 <= k < |r| ==> Collected(r[k], exts)
    decreases listing, |listing.entries| - i + 1
  {
    if i == |listing.entries| then []
    else EntryItems(dir, listing, i, exts, read) + ItemsFrom(dir, listing, i + 1, exts, read)
  }

  /** The items under one input directory; one that cannot be listed
      gives none. */
  function DirItems(dir: string, listing: Listing, exts: seq<string>, read: string -> Cue.SheetSource): (r: seq<Item>)
    ensures forall k :: 0 <= k < |r| ==> Collected(r[k], exts)
  {
    if listing.Listing? then ItemsFrom(dir, listing, 0, exts, read) else []
  }

  /** The items of the first n input directories, in order; the first
      directory that does not exist ends the collection with an error. */
  function CollectUpTo(dirs: seq<string>, n: nat, exts: seq<string>, world: World): (r: Result<seq<Item>>)
    requires n <= |dirs|
    ensures r.Ok? ==> forall k :: 0 <= k < |r.value| ==> Collected(r.value[k], exts)
  {
    if n == 0 then Ok([])
    else
      match CollectUpTo(dirs, n - 1, exts, world)
      case Err(e) => Err(e)
      case Ok(prev) =>
        if !world.pathExists(dirs[n - 1]) then Err("not found: " + dirs[n - 1])
        else Ok(prev + DirItems(dirs[n - 1], world.listDir(dirs[n - 1]), exts, world.readSheet))
  }

  function Collect(dirs: seq<string>, exts: seq<string>, world: World): (r: Result<seq<Item>>)
    ensures r.Ok? ==> forall k :: 0 <= k < |r.value| ==> Collected(r.value[k], exts)
  {
    CollectUpTo(dirs, |dirs|, exts, world)
  }

  /** Collection fails exactly when some input directory is missing, and
      the error names the first missing one. */
  lemma {:induction false} CollectError(dirs: seq<string>, n: nat, exts: seq<string>, world: World)
    requires n <= |dirs|
    ensures CollectUpTo(dirs, n, exts, world).Err? <==> exists k :: 0 <= k < n && !world.pathExists(dirs[k])
    ensures forall k :: 0 <= k < n && !world.pathExists(dirs[k]) && (forall j :: 0 <= j < k ==> world.pathExists(dirs[j])) ==>
      CollectUpTo(dirs, n, exts, world) == Err("not found: " + dirs[k])
  {
    if n > 0 {
      CollectError(dirs, n - 1, exts, world);
      var prev := CollectUpTo(dirs, n - 1, exts, world);
      if prev.Err? {
        assert CollectUpTo(dirs, n, exts, world) == prev;
        var m :| 0 <= m < n - 1 && !world.pathExists(dirs[m]);
        forall k | 0 <= k < n && !world.pathExists(dirs[k]) && (forall j :: 0 <= j < k ==> world.pathExists(dirs[j]))
          ensures CollectUpTo(dirs, n, exts, world) == Err("not found: " + dirs[k])
        {
          assert k <= m;
        }
      } else {
        assert forall k :: 0 <= k < n - 1 ==> world.pathExists(dirs[k]);
      }
    }
  }

  /** Once collection has failed, later directories do not change the
      error. */
  lemma {:induction false} CollectErrorStays(dirs: seq<string>, m: nat, n: nat, exts: seq<string>, world: World)
    requires m <= n <= |dirs| && CollectUpTo(dirs, m, exts, world).Err?
    ensures CollectUpTo(dirs, n, exts, world) == CollectUpTo(dirs, m, exts, world)
    decreases n - m
  {
    if m < n {
      CollectErrorStays(dirs, m, n - 1, exts, world);
    }
  }

  /** The items of an entry are among those of the entries from any
      earlier position on. */
  lemma EntryIncluded(dir: string, listing: Listing, j: nat, i: nat, exts: seq<string>, read: string -> Cue.SheetSource)
    requires listing.Listing? && j <= i < |listing.entries|
    ensures multiset(EntryItems(dir, listing, i, exts, read)) <= multiset(ItemsFrom(dir, listing, j, exts, read))
  {
    var n := |listing.entries|;
    var part := (k: nat) => if k < n then EntryItems(dir, listing, k, exts, read) else [];
    var from := (k: nat) => if k <= n then ItemsFrom(dir, listing, k, exts, read) else [];
    forall k | j <= k < n
      ensures from(k) == part(k) + from(k + 1)
    {
      ItemsFromUnfold(dir, listing, k, exts, read);
      assert part(k) == EntryItems(dir, listing, k, exts, read);
      assert from(k) == ItemsFrom(dir, listing, k, exts, read);
      assert from(k + 1) == ItemsFrom(dir, listing, k + 1, exts, read);
    }
    PartIncluded(part, from, j, i, n);
    assert part(i) == EntryItems(dir, listing, i, exts, read);
    assert from(j) == ItemsFrom(dir, listing, j, exts, read);
  }

  /** In a sequence built part by part, each later part is among the
      items from any earlier position on. */
  lemma {:induction false} PartIncluded(part: nat -> seq<Item>, from: nat -> seq<Item>, j: nat, i: nat, n: nat)
    requires j <= i < n
    requires forall k :: j <= k < n ==> from(k) == part(k) + from(k + 1)
    ensures multiset(part(i)) <= multiset(from(j))
    decreases i - j
  {
    if j < i {
      PartIncluded(part, from, j + 1, i, n);
      WithinConcat(part(i), from(j + 1), part(j));
    } else {
      WithinConcat(part(j), part(j), from(j + 1));
    }
  }

  lemma ItemsFromUnfold(dir: string, listing: Listing, j: nat, exts: seq<string>, read: string -> Cue.SheetSource)
    requires listing.Listing? && j < |listing.entries|
    ensures ItemsFrom(dir, listing, j, exts, read)
         == EntryItems(dir, listing, j, exts, read) + ItemsFrom(dir, listing, j + 1, exts, read)
  {
  }

  lemma WithinConcat(a: seq<Item>, b: seq<Item>, c: seq<Item>)
    requires multiset(a) <= multiset(b)
    ensures multiset(a) <= multiset(b + c) && multiset(a) <= multiset(c + b)
  {
    assert multiset(b + c) == multiset(b) + multiset(c);
    assert multiset(c + b) == multiset(c) + multiset(b);
  }

  /** Subdirectories are walked: the items of a readable subdirectory are
      all among the items of its parent. */
  lemma SubdirIncluded(dir: string, listing: Listing, i: nat, exts: seq<string>, read: string -> Cue.SheetSource)
    requires listing.Listing? && i < |listing.entries|
    requires listing.entries[i].DirEntry? && listing.entries[i].kind.Directory?
    requires listing.entries[i].kind.listing.Listing?
    ensures var sub := Paths.JoinPath(dir, listing.entries[i].name);
      multiset(DirItems(sub, listing.entries[i].kind.listing, exts, read)) <= multiset(DirItems(dir, listing, exts, read))
  {
    var sublisting := listing.entries[i].kind.listing;
    var sub := Paths.JoinPath(dir, listing.entries[i].name);
    EntryIncluded(dir, listing, 0, i, exts, read);
    assert EntryItems(dir, listing, i, exts, read) == ItemsFrom(sub, sublisting, 0, exts, read)
      == DirItems(sub, sublisting, exts, read);
    assert DirItems(dir, listing, exts, read) == ItemsFrom(dir, listing, 0, exts, read);
  }

  /** A regular file without an extension is never filtered out, and one
      with an extension outside the list contributes nothing. */
  lemma FileFilter(dir: string, listing: Listing, i: nat, exts: seq<string>, read: string -> Cue.SheetSource)
    requires listing.Listing? && i < |listing.entries|
    requires listing.entries[i].DirEntry? && listing.entries[i].kind.RegularFile?
    ensures var path := Paths.JoinPath(dir, listing.entries[i].name);
      var items := EntryItems(dir, listing, i, exts, read);
      && (Paths.Extension(path).None? ==> |items| >= 1)
      && (Paths.Extension(path).Some? && Lower(Paths.Extension(path).value) !in exts ==> items == [])
      && (Kept(path, exts) ==> |items| >= 1 && forall k :: 0 <= k < |items| ==> items[k].filename == path)
  {
  }

  // ---------------------------------------------------------------------
  // The walk, step by step

  /** The walk of one readable directory: each entry in listing order,
      subdirectories recursively, kept files expanded by their CUE
      sheets. */
  method WalkDir(dir: string, listing: Listing, exts: seq<string>, read: string -> Cue.SheetSource) returns (items: seq<Item>)
    requires listing.Listing?
    ensures items == ItemsFrom(dir, listing, 0, exts, read)
    decreases listing, 1
  {
    items := [];
    var i := 0;
    while i < |listing.entries|
      invariant 0 <= i <= |listing.entries|
      invariant items + ItemsFrom(dir, listing, i, exts, read) == ItemsFrom(dir, listing, 0, exts, read)
    {
      var found := WalkEntry(dir, listing, i, exts, read);
      ghost var rest := ItemsFrom(dir, listing, i + 1, exts, read);
      ItemsFromUnfold(dir, listing, i, exts, read);
      AppendAssoc(items, found, rest);
      items := items + found;
      i := i + 1;
    }
  }

  /** One entry of the walk: a subdirectory is walked, a kept file is
      expanded by its CUE sheet, and anything else gives nothing. */
  method WalkEntry(dir: string, listing: Listing, i: nat, exts: seq<string>, read: string -> Cue.SheetSource) returns (found: seq<Item>)
    requires listing.Listing? && i < |listing.entries|
    ensures found == EntryItems(dir, listing, i, exts, read)
    decreases listing, 0
  {
    found := [];
    var entry := listing.entries[i];
    if entry.DirEntry? {
      var path := Paths.JoinPath(dir, entry.name);
      match entry.kind {
        case Directory(sub) =>
          if sub.Listing? {
            found := WalkDir(path, sub, exts, read);
          }
        case RegularFile(_) =>
          found := WalkFile(path, exts, read);
        case UnknownKind =>
        case OtherKind =>
      }
    }
  }

  /** A regular file of the walk: kept when its extension, if any, is one
      of the wanted ones, and then expanded by its CUE sheet. */
  method WalkFile(path: string, exts: seq<string>, read: string -> Cue.SheetSource) returns (found: seq<Item>)
    ensures found == FileEntryItems(path, exts, read)
  {
    found := [];
    var keep := true;
    var ext := Paths.Extension(path);
    if ext.Some? && Lower(ext.value) !in exts {
      keep := false;
    }
    if keep {
      var infos := Cue.FindCueInfo(path, read);
      found := FileItems(path, Paths.Stem(path), infos.GetOr([]));
    }
  }

  // ---------------------------------------------------------------------
  // Sorting and numbering

  /** The natural comparator on base names is a total preorder. */
  ghost predicate TotalPreorder(le: (string, string) -> bool) {
    && (forall a, b :: le(a, b) || le(b, a))
    && (forall a, b, c :: le(a, b) && le(b, c) ==> le(a, c))
  }

  predicate Sorted(items: seq<Item>, le: (string, string) -> bool) {
    forall i, j :: 0 <= i < j < |items| ==> le(items[i].basename, items[j].basename)
  }

  /** One item put into a sorted sequence, after every item it does not
      precede. */
  method Insert(sorted: seq<Item>, x: Item, le: (string, string) -> bool) returns (r: seq<Item>)
    requires TotalPreorder(le) && Sorted(sorted, le)
    ensures Sorted(r, le)
    ensures multiset(r) == multiset(sorted) + multiset{x}
  {
    var j := |sorted|;
    while j > 0 && !le(sorted[j - 1].basename, x.basename)
      invariant 0 <= j <= |sorted|
      invariant forall k :: j <= k < |sorted| ==> le(x.basename, sorted[k].basename)
      decreases j
    {
      j := j - 1;
    }
    forall k | 0 <= k < j
      ensures le(sorted[k].basename, x.basename)
    {
      if k < j - 1 {
        assert le(sorted[k].basename, sorted[j - 1].basename);
      }
    }
    InsertSorted(sorted, x, j, le);
    r := sorted[..j] + [x] + sorted[j..];
    assert sorted == sorted[..j] + sorted[j..];
  }

  /** A sequence stays sorted when an item is put between the items it
      follows and those it precedes. */
  lemma InsertSorted(s: seq<Item>, x: Item, j: nat, le: (string, string) -> bool)
    requires j <= |s| && Sorted(s, le)
    requires forall k :: 0 <= k < j ==> le(s[k].basename, x.basename)
    requires forall k :: j <= k < |s| ==> le(x.basename, s[k].basename)
    ensures Sorted(s[..j] + [x] + s[j..], le)
  {
    var r := s[..j] + [x] + s[j..];
    assert forall k :: 0 <= k < j ==> r[k] == s[k];
    assert r[j] == x;
    assert forall k :: j < k < |r| ==> r[k] == s[k - 1];
  }

  /** `sort_unstable_by` with the natural comparator on base names: only
      the order and the contents are promised, so ties may come out in
      any order. */
  method SortByBasename(items: seq<Item>, le: (string, string) -> bool) returns (sorted: seq<Item>)
    requires TotalPreorder(le)
    ensures Sorted(sorted, le)
    ensures multiset(sorted) == multiset(items)
    ensures |sorted| == |items|
  {
    sorted := [];
    for i := 0 to |items|
      invariant Sorted(sorted, le)
      invariant multiset(sorted) == multiset(items[..i])
    {
      sorted := Insert(sorted, items[i], le);
      assert items[..i + 1] == items[..i] + [items[i]];
    }
    assert items[..|items|] == items;
    assert |multiset(sorted)| == |multiset(items)|;
  }

  /** Item i gets index i, and every item the count as its total. */
  method Number(items: seq<Item>) returns (r: seq<Item>)
    ensures |r| == |items|
    ensures forall i :: 0 <= i < |r| ==> r[i] == items[i].(index := i, total := |items|)
  {
    r := items;
    var n := |items|;
    for i := 0 to n
      invariant |r| == n
      invariant forall k :: 0 <= k < i ==> r[k] == items[k].(index := k, total := n)
      invariant forall k :: i <= k < n ==> r[k] == items[k]
    {
      r := r[i := r[i].(index := i, total := n)];
    }
  }

  /** The items with their numbering cleared. */
  function Unnumbered(items: seq<Item>): (r: seq<Item>)
    ensures |r| == |items|
    ensures forall i :: 0 <= i < |r| ==> r[i] == items[i].(index := 0, total := 0)
  {
    if items == [] then [] else [items[0].(index := 0, total := 0)] + Unnumbered(items[1..])
  }

  /** A missing directory after the first i ends the collection with its
      error. */
  lemma CollectMissing(dirs: seq<string>, i: nat, exts: seq<string>, world: World, items: seq<Item>)
    requires i < |dirs| && CollectUpTo(dirs, i, exts, world) == Ok(items) && !world.pathExists(dirs[i])
    ensures Collect(dirs, exts, world) == Err("not found: " + dirs[i])
  {
    assert CollectUpTo(dirs, i + 1, exts, world) == Err("not found: " + dirs[i]);
    CollectErrorStays(dirs, i + 1, |dirs|, exts, world);
  }

  lemma CollectPresent(dirs: seq<string>, i: nat, exts: seq<string>, world: World, items: seq<Item>)
    requires i < |dirs| && CollectUpTo(dirs, i, exts, world) == Ok(items) && world.pathExists(dirs[i])
    ensures CollectUpTo(dirs, i + 1, exts, world) == Ok(items + DirItems(dirs[i], world.listDir(dirs[i]), exts, world.readSheet))
  {
  }

  /** The loop over the input directories: the first missing one is an
      error, and the items of the others are gathered in order. */
  method CollectDirs(dirs: seq<string>, exts: seq<string>, world: World) returns (r: Result<seq<Item>>)
    ensures r == Collect(dirs, exts, world)
  {
    var items: seq<Item> := [];
    for i := 0 to |dirs|
      invariant CollectUpTo(dirs, i, exts, world) == Ok(items)
    {
      var dir := dirs[i];
      if !world.pathExists(dir) {
        CollectMissing(dirs, i, exts, world, items);
        return Err("not found: " + dir);
      }
      var listing := world.listDir(dir);
      var found: seq<Item> := [];
      if listing.Listing? {
        found := WalkDir(dir, listing, exts, world.readSheet);
      }
      assert found == DirItems(dir, listing, exts, world.readSheet);
      CollectPresent(dirs, i, exts, world, items);
      items := items + found;
    }
    r := Ok(items);
  }

  /** The collected items sorted by base name and numbered in that order. */
  method SortAndNumber(items: seq<Item>, exts: seq<string>, le: (string, string) -> bool) returns (r: seq<Item>)
    requires TotalPreorder(le)
    requires forall k :: 0 <= k < |items| ==> Collected(items[k], exts)
    ensures |r| == |items|
    ensures multiset(Unnumbered(r)) == multiset(items)
    ensures Sorted(r, le)
    ensures forall i :: 0 <= i < |r| ==> r[i].index == i && r[i].total == |r|
  {
    var sorted := SortByBasename(items, le);
    r := Number(sorted);
    UnnumberedSorted(items, sorted, r, exts);
  }

  /** `find_files`: the first missing input directory is an error;
      otherwise the collected items, sorted by base name and numbered. */
  method FindFiles(dirs: seq<string>, exts: seq<string>, world: World, le: (string, string) -> bool)
    returns (r: Result<seq<Item>>)
    requires TotalPreorder(le)
    ensures r.Err? <==> Collect(dirs, exts, world).Err?
    ensures r.Err? ==> r == Collect(dirs, exts, world)
    ensures r.Ok? ==>
      && |r.value| == |Collect(dirs, exts, world).value|
      && multiset(Unnumbered(r.value)) == multiset(Collect(dirs, exts, world).value)
      && Sorted(r.value, le)
      && forall i :: 0 <= i < |r.value| ==> r.value[i].index == i && r.value[i].total == |r.value|
  {
    var collected := CollectDirs(dirs, exts, world);
    if collected.Err? {
      return collected;
    }
    var numbered := SortAndNumber(collected.value, exts, le);
    r := Ok(numbered);
  }

  /** Numbering the sorted items and clearing the numbers again gives the
      sorted items back, since collected items are not numbered. */
  lemma UnnumberedSorted(items: seq<Item>, sorted: seq<Item>, numbered: seq<Item>, exts: seq<string>)
    requires forall k :: 0 <= k < |items| ==> Collected(items[k], exts)
    requires multiset(sorted) == multiset(items)
    requires |numbered| == |sorted|
    requires forall i :: 0 <= i < |numbered| ==> numbered[i] == sorted[i].(index := i, total := |sorted|)
    ensures Unnumbered(numbered) == sorted
  {
    forall i | 0 <= i < |sorted|
      ensures sorted[i].index == 0 && sorted[i].total == 0
    {
      assert sorted[i] in multiset(items);
      var k :| 0 <= k < |items| && items[k] == sorted[i];
      assert Collected(items[k], exts);
    }
  }
}
