/** Cover pictures: the transcoder arguments that shrink a picture, the
    conversion itself, the per-path cache of converted pictures and the
    search for a cover file next to the audio file. */
module Pics {
  import opened Wrappers
  import opened Text
  import Paths
  import opened Fs
  import opened Formats
  import Args
  import opened Externals
  import ConcurrentMap

  /** Converted pictures by source path; a failed conversion is cached as
      None like any other result. */
  type PicsMap = ConcurrentMap.ConcurrentMap<string, Option<Bytes>>

  // ---------------------------------------------------------------------
  // Arguments

  const ScaleHead: string := "scale='w=min("
  const ScaleMid: string := "iw)':h='min("
  const ScaleTail: string := "ih)':force_original_aspect_ratio=decrease:flags=lanczos"

  /** The filter that scales a picture down to fit maxWidth x maxHeight,
      keeping its aspect ratio. */
  function ScaleFilter(maxWidth: nat, maxHeight: nat): string {
    ScaleHead + Decimal(maxWidth) + "," + ScaleMid + Decimal(maxHeight) + "," + ScaleTail
  }

  /** Two strings that each end at their first c, followed by the rest,
      are equal when the wholes are. */
  lemma SplitAtFirst(a: string, b: string, x: string, y: string, c: char)
    requires c !in a && c !in b
    requires a + [c] + x == b + [c] + y
    ensures a == b && x == y
  {
    var s := a + [c] + x;
    assert forall k :: 0 <= k < |a| ==> s[k] == a[k];
    assert forall k :: 0 <= k < |b| ==> s[k] == b[k];
    assert s[|a|] == c && s[|b|] == c;
    assert |a| == |b|;
    assert a == s[..|a|] && b == s[..|b|];
    assert x == s[|a| + 1..] && y == s[|b| + 1..];
  }

  lemma DecimalInjective(m: nat, n: nat)
    requires Decimal(m) == Decimal(n)
    ensures m == n
  {
    DecimalValue(m);
    DecimalValue(n);
  }

  lemma DropPrefix(p: string, x: string, y: string)
    requires p + x == p + y
    ensures x == y
  {
    assert x == (p + x)[|p|..];
  }

  lemma NoComma(n: nat)
    ensures ',' !in Decimal(n)
  {
    var d := Decimal(n);
    assert forall k :: 0 <= k < |d| ==> IsDigit(d[k]);
  }

  lemma ScaleFilterParts(w: nat, h: nat)
    ensures ScaleFilter(w, h) == ScaleHead + (Decimal(w) + [','] + (ScaleMid + (Decimal(h) + [','] + ScaleTail)))
  {
    Regroup(ScaleHead, Decimal(w), [','], ScaleMid, Decimal(h), [','], ScaleTail);
  }

  lemma Regroup<T>(a: seq<T>, b: seq<T>, c: seq<T>, d: seq<T>, e: seq<T>, f: seq<T>, g: seq<T>)
    ensures a + b + c + d + e + f + g == a + (b + c + (d + (e + f + g)))
  {
  }

  /** The filter determines both bounds: different bounds never give the
      same filter. */
  lemma ScaleFilterInjective(w1: nat, h1: nat, w2: nat, h2: nat)
    requires ScaleFilter(w1, h1) == ScaleFilter(w2, h2)
    ensures w1 == w2 && h1 == h2
  {
    var r1 := ScaleMid + (Decimal(h1) + [','] + ScaleTail);
    var r2 := ScaleMid + (Decimal(h2) + [','] + ScaleTail);
    ScaleFilterParts(w1, h1);
    ScaleFilterParts(w2, h2);
    DropPrefix(ScaleHead, Decimal(w1) + [','] + r1, Decimal(w2) + [','] + r2);
    NoComma(w1);
    NoComma(w2);
    SplitAtFirst(Decimal(w1), Decimal(w2), r1, r2, ',');
    DecimalInjective(w1, w2);
    DropPrefix(ScaleMid, Decimal(h1) + [','] + ScaleTail, Decimal(h2) + [','] + ScaleTail);
    NoComma(h1);
    NoComma(h2);
    SplitAtFirst(Decimal(h1), Decimal(h2), ScaleTail, ScaleTail, ',');
    DecimalInjective(h1, h2);
  }

  /** The picture arguments: the scale filter with the maximum width and
      height, then the format's quality arguments. */
  function FfmpegConvPicArgs(app: Args.AppArgs, format: Format, normalize: (Format, nat) -> nat): (r: seq<string>)
    ensures |r| >= 4
    ensures r[..2] == ["-vf", ScaleFilter(app.maxPicWidth, app.maxPicHeight)]
    ensures r[2..] == PicQualityArgs(format, app.picQuality, normalize)
    ensures r[|r| - 2..] == ["-q:v", Decimal(normalize(format, app.picQuality))]
  {
    var head := ["-vf", ScaleFilter(app.maxPicWidth, app.maxPicHeight)];
    var q := PicQualityArgs(format, app.picQuality, normalize);
    assert (head + q)[2..] == q;
    assert (head + q)[|head + q| - 2..] == q[|q| - 2..];
    head + q
  }

  /** The transcoder command line for an MP3 cover: the picture as input,
      JPEG as output format, the picture arguments, and standard output as
      the destination. */
  function ConvPicCommand(picFile: string, picArgs: seq<string>): (r: seq<string>)
    ensures |r| == |picArgs| + 5
    ensures r[..4] == ["-i", picFile, "-f", "mjpeg"]
    ensures r[4..|r| - 1] == picArgs
    ensures r[|r| - 1] == "-"
  {
    ["-i", picFile, "-f", "mjpeg"] + picArgs + ["-"]
  }

  // ---------------------------------------------------------------------
  // Conversion and its cache

  /** The cover in the form the output format embeds: Ogg takes the file as
      it is; MP3 takes the transcoder's JPEG output, which is empty in a
      dry run and missing when the transcoder could not run or failed. */
  function ConvPic(picFile: string, app: Args.AppArgs, format: Format, world: World): (r: Option<Bytes>)
    ensures format.Ogg? ==> r == world.readFile(picFile)
    ensures format.MP3? && app.dryRun ==> r == Some([])
    ensures format.MP3? && !app.dryRun ==>
      var out := world.runPicture(ConvPicCommand(picFile, FfmpegConvPicArgs(app, format, world.normalizeQuality)));
      (r.Some? <==> out.Some? && out.value.code == Some(0))
      && (r.Some? ==> r.value == out.value.stdout)
  {
    match format
    case Ogg => world.readFile(picFile)
    case MP3 =>
      if app.dryRun then Some([])
      else
        var args := ConvPicCommand(picFile, FfmpegConvPicArgs(app, format, world.normalizeQuality));
        match world.runPicture(args)
        case None => None
        case Some(out) =>
          if out.code.None? then None
          else if out.code.value != 0 then None
          else Some(out.stdout)
  }

  /** Every cached value is what converting its path gives. */
  ghost predicate Coherent(entries: map<string, Option<Bytes>>, app: Args.AppArgs, format: Format, world: World) {
    forall k :: k in entries ==> entries[k] == ConvPic(k, app, format, world)
  }

  /** Storing a path's own conversion keeps the cache coherent. */
  lemma CoherentStore(entries: map<string, Option<Bytes>>, picFile: string, app: Args.AppArgs, format: Format, world: World)
    requires Coherent(entries, app, format, world)
    ensures Coherent(entries[picFile := ConvPic(picFile, app, format, world)], app, format, world)
  {
  }

  /** The cache after one lookup of `key`, if there is one: a path not
      yet cached gets its conversion and a count of one computation; a
      cached path, or no lookup, leaves entries and counts as they were. */
  ghost predicate CacheStep(entries: map<string, Option<Bytes>>, counts: map<string, nat>,
                            entries': map<string, Option<Bytes>>, counts': map<string, nat>,
                            key: Option<string>, app: Args.AppArgs, format: Format, world: World)
  {
    if key.None? || key.value in entries then entries' == entries && counts' == counts
    else
      && entries' == entries[key.value := ConvPic(key.value, app, format, world)]
      && counts' == counts[key.value := 1]
  }

  /** The cache has grown from `entries` and `counts` by exactly `added`:
      nothing held before was dropped, replaced or counted again. */
  ghost predicate Grown(entries: map<string, Option<Bytes>>, counts: map<string, nat>,
                        entries': map<string, Option<Bytes>>, counts': map<string, nat>, added: set<string>)
  {
    && entries'.Keys == entries.Keys + added
    && (forall k :: k in entries ==> k in entries' && entries'[k] == entries[k])
    && (forall k :: k in counts ==> k in counts' && counts'[k] == counts[k])
  }

  /** The keys of an optional key: none or one. */
  function KeySet(key: Option<string>): (r: set<string>)
    ensures key.None? <==> r == {}
    ensures key.Some? ==> r == {key.value}
  {
    if key.Some? then {key.value} else {}
  }

  /** A lookup is growth by at most the key looked up. */
  lemma CacheStepGrown(entries: map<string, Option<Bytes>>, counts: map<string, nat>,
                       entries': map<string, Option<Bytes>>, counts': map<string, nat>,
                       key: Option<string>, app: Args.AppArgs, format: Format, world: World)
    requires counts.Keys == entries.Keys
    requires CacheStep(entries, counts, entries', counts', key, app, format, world)
    ensures Grown(entries, counts, entries', counts', KeySet(key))
  {
  }

  /** Growth followed by growth is growth by both. */
  lemma GrownTrans(entries0: map<string, Option<Bytes>>, counts0: map<string, nat>,
                   entries1: map<string, Option<Bytes>>, counts1: map<string, nat>,
                   entries2: map<string, Option<Bytes>>, counts2: map<string, nat>,
                   added1: set<string>, added2: set<string>)
    requires Grown(entries0, counts0, entries1, counts1, added1)
    requires Grown(entries1, counts1, entries2, counts2, added2)
    ensures Grown(entries0, counts0, entries2, counts2, added1 + added2)
  {
  }

  /** The converted cover, through the cache: converted at most once per
      path, with a failure cached too and then returned without running
      anything again. */
  method ConvPicIfNeeded(pics: PicsMap, picFile: string, app: Args.AppArgs, format: Format, world: World)
    returns (r: Option<Bytes>)
    requires pics.Valid() && Coherent(pics.table.entries, app, format, world)
    modifies pics.table
    ensures pics.Valid() && Coherent(pics.table.entries, app, format, world)
    ensures r == ConvPic(picFile, app, format, world)
    ensures picFile in pics.table.entries && r == pics.table.entries[picFile]
    ensures pics.table.entries == old(pics.table.entries)[picFile := r]
    ensures CacheStep(old(pics.table.entries), old(pics.table.computations),
                      pics.table.entries, pics.table.computations, Some(picFile), app, format, world)
  {
    ghost var before := pics.table.entries;
    ghost var v := ConvPic(picFile, app, format, world);
    var cached := pics.SetIfNotExists(picFile, () => ConvPic(picFile, app, format, world));
    if picFile in before {
      assert before[picFile] == v;
      assert before[picFile := v] == before;
    } else {
      CoherentStore(before, picFile, app, format, world);
    }
    assert cached == Some(v) && pics.table.entries == before[picFile := v];
    if cached.Some? && cached.value.Some? {
      return Some(cached.value.value);
    }
    return None;
  }

  // ---------------------------------------------------------------------
  // Finding a cover next to the audio file

  /** A name matches when its lower-cased stem is a cover name and its
      lower-cased extension ("" when it has none) is a cover extension. */
  predicate CoverMatch(name: string, names: seq<string>, exts: seq<string>)
  {
    Lower(Paths.NameStem(name)) in names && Lower(Paths.NameExtension(name).GetOr("")) in exts
  }

  /** A name without an extension matches only through the extension "". */
  lemma NoExtensionMatch(name: string, names: seq<string>, exts: seq<string>)
    requires Paths.NameExtension(name).None?
    ensures CoverMatch(name, names, exts) <==> Lower(Paths.NameStem(name)) in names && "" in exts
  {
    assert Lower("") == "";
  }

  /** An entry the search passes over: readable, and not a matching
      regular file. */
  predicate Skipped(e: DirEntry, names: seq<string>, exts: seq<string>) {
    e.DirEntry? && !e.kind.UnknownKind? && !(e.kind.RegularFile? && CoverMatch(e.name, names, exts))
  }

  predicate IsCoverFile(e: DirEntry, names: seq<string>, exts: seq<string>) {
    e.DirEntry? && e.kind.RegularFile? && CoverMatch(e.name, names, exts)
  }

  /** The search over the entries in order: the first matching regular
      file gives its canonical path (None when that cannot be had), and an
      unreadable entry or file type before it ends the search with None. */
  function CoverScan(entries: seq<DirEntry>, names: seq<string>, exts: seq<string>): (r: Option<string>)
    ensures r.Some? ==>
      exists i :: (0 <= i < |entries| && IsCoverFile(entries[i], names, exts)
        && entries[i].kind.canonical == Some(r.value)
        && forall j :: 0 <= j < i ==> Skipped(entries[j], names, exts))
    ensures (forall j :: 0 <= j < |entries| ==> Skipped(entries[j], names, exts)) ==> r.None?
  {
    if entries == [] then None
    else
      var e := entries[0];
      if e.BadEntry? || e.kind.UnknownKind? then None
      else if e.kind.RegularFile? && CoverMatch(e.name, names, exts) then e.kind.canonical
      else
        var rest := CoverScan(entries[1..], names, exts);
        assert rest.Some? ==> exists i :: (0 <= i < |entries| && IsCoverFile(entries[i], names, exts)
          && entries[i].kind.canonical == Some(rest.value)
          && forall j :: 0 <= j < i ==> Skipped(entries[j], names, exts)) by {
          if rest.Some? {
            var i :| 0 <= i < |entries[1..]| && IsCoverFile(entries[1..][i], names, exts)
              && entries[1..][i].kind.canonical == Some(rest.value)
              && forall j :: 0 <= j < i ==> Skipped(entries[1..][j], names, exts);
            assert forall j :: 0 <= j < i + 1 ==> Skipped(entries[j], names, exts) by {
              forall j | 0 <= j < i + 1 ensures Skipped(entries[j], names, exts) {
                if j > 0 {
                  assert entries[j] == entries[1..][j - 1];
                }
              }
            }
          }
        }
        rest
  }

  /** The first readable matching regular file decides the search when
      every entry before it is passed over. */
  lemma {:induction false} CoverScanFirst(entries: seq<DirEntry>, names: seq<string>, exts: seq<string>, i: nat)
    requires i < |entries| && IsCoverFile(entries[i], names, exts)
    requires forall j :: 0 <= j < i ==> Skipped(entries[j], names, exts)
    ensures CoverScan(entries, names, exts) == entries[i].kind.canonical
  {
    if i > 0 {
      assert Skipped(entries[0], names, exts);
      assert forall j :: 0 <= j < i - 1 ==> entries[1..][j] == entries[j + 1];
      CoverScanFirst(entries[1..], names, exts, i - 1);
    }
  }

  /** Whether a lower-cased stem and extension match: a loop over the
      cover names and, for a name that is equal, a loop over the cover
      extensions. */
  method MatchesCover(basename: string, ext: string, names: seq<string>, exts: seq<string>) returns (found: bool)
    ensures found <==> basename in names && ext in exts
  {
    for j := 0 to |names|
      invariant forall j' :: 0 <= j' < j ==> !(basename == names[j'] && ext in exts)
    {
      if basename == names[j] {
        for k := 0 to |exts|
          invariant forall k' :: 0 <= k' < k ==> ext != exts[k']
        {
          if ext == exts[k] {
            return true;
          }
        }
      }
    }
    return false;
  }

  /** The cover of a directory: an unlistable directory has none; otherwise
      the entries are searched in order and the first match returns. */
  method FindCoverInDir(dir: string, names: seq<string>, exts: seq<string>, world: World) returns (r: Option<string>)
    ensures world.listDir(dir).Unreadable? ==> r.None?
    ensures world.listDir(dir).Listing? ==> r == CoverScan(world.listDir(dir).entries, names, exts)
  {
    var listing := world.listDir(dir);
    if listing.Unreadable? {
      return None;
    }
    var entries := listing.entries;
    for i := 0 to |entries|
      invariant CoverScan(entries[i..], names, exts) == CoverScan(entries, names, exts)
    {
      assert entries[i..][1..] == entries[i + 1..];
      var e := entries[i];
      if e.BadEntry? || e.kind.UnknownKind? {
        return None;
      }
      if e.kind.RegularFile? {
        var ext := Lower(Paths.NameExtension(e.name).GetOr(""));
        var basename := Lower(Paths.NameStem(e.name));
        var found := MatchesCover(basename, ext, names, exts);
        if found {
          return e.kind.canonical;
        }
      }
    }
    return None;
  }
}
