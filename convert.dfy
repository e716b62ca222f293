/** Converting one item: the output file name built from the tags, the
    transcoder's argument list, and what the conversion comes to. */
module Convert {
  import opened Wrappers
  import opened Text
  import Paths
  import opened Formats
  import Args
  import Cue
  import Meta
  import opened Externals
  import Pics

  /** One unit of work: a file, or one track of a file that a CUE sheet
      splits; index and total are its place in the whole run. */
  datatype Item = Item(filename: string, basename: string, index: nat, total: nat, cue: Option<Cue.CueInfo>)

  function Max(a: nat, b: nat): nat {
    if a >= b then a else b
  }

  // ---------------------------------------------------------------------
  // Confining the output file name

  /** A segment that a resolved relative path may contain. */
  predicate CleanSegment(s: string) {
    s != "" && s != "." && s != ".." && '/' !in s
  }

  predicate Clean(segs: seq<string>) {
    forall i :: 0 <= i < |segs| ==> CleanSegment(segs[i])
  }

  predicate NoSlash(segs: seq<string>) {
    forall i :: 0 <= i < |segs| ==> '/' !in segs[i]
  }

  /** The segments below the root after resolving segs, one by one, on top
      of stack: empty and "." segments vanish, ".." drops the last segment
      (and at the root drops nothing), and any other segment is pushed. */
  function Resolve(stack: seq<string>, segs: seq<string>): (r: seq<string>)
    requires Clean(stack) && NoSlash(segs)
    ensures Clean(r)
    decreases |segs|
  {
    if segs == [] then stack
    else
      var s := segs[0];
      if s == "" || s == "." then Resolve(stack, segs[1..])
      else if s == ".." then Resolve(if stack == [] then [] else stack[..|stack| - 1], segs[1..])
      else Resolve(stack + [s], segs[1..])
  }

  /** Resolving segments that are already clean just appends them. */
  lemma {:induction false} ResolveClean(stack: seq<string>, segs: seq<string>)
    requires Clean(stack) && Clean(segs)
    ensures Resolve(stack, segs) == stack + segs
    decreases |segs|
  {
    if segs != [] {
      ResolveClean(stack + [segs[0]], segs[1..]);
      assert stack + [segs[0]] + segs[1..] == stack + segs;
    }
  }

  /** Clean segments joined with '/' give a relative path that splits
      back into the same segments. */
  lemma JoinClean(segs: seq<string>)
    requires Clean(segs)
    ensures segs == [] ==> Join(segs, '/') == []
    ensures segs != [] ==> Join(segs, '/') != [] && Join(segs, '/')[0] != '/'
    ensures segs != [] ==> Split(Join(segs, '/'), '/') == segs
  {
    if segs != [] {
      SplitJoin(segs, '/');
      assert CleanSegment(segs[0]);
      assert segs[0][0] in segs[0];
      if |segs| > 1 {
        assert Join(segs, '/') == segs[0] + ['/'] + Join(segs[1..], '/');
      }
    }
  }

  /** What is put in front of the rendered name before resolving it. */
  const DedotPrefix: string := "/..///"

  /** The rendered name resolved as a path below the root and made
      relative: the result never starts with '/' and has no empty, "." or
      ".." segment. */
  function SanitizeFilename(filename: string): (r: string)
    ensures r == [] || r[0] != '/'
    ensures r != [] ==> Clean(Split(r, '/'))
  {
    var segs := Resolve([], Split(DedotPrefix + filename, '/'));
    JoinClean(segs);
    Join(segs, '/')
  }

  lemma SplitDedot(f: string)
    ensures Split(DedotPrefix + f, '/') == ["", "..", "", ""] + Split(f, '/')
  {
    var x1 := "/" + f;
    var x2 := "/" + x1;
    var x3 := ".." + "/" + x2;
    SplitAfterPrefix("", f, '/');
    assert "" + ['/'] + f == x1;
    SplitAfterPrefix("", x1, '/');
    assert "" + ['/'] + x1 == x2;
    SplitAfterPrefix("..", x2, '/');
    assert ".." + ['/'] + x2 == x3;
    SplitAfterPrefix("", x3, '/');
    assert "" + ['/'] + x3 == DedotPrefix + f;
  }

  /** An empty segment, or a ".." at the root, is dropped by resolution. */
  lemma ResolveDrops(seg: string, segs: seq<string>)
    requires seg == "" || seg == ".."
    requires NoSlash(segs)
    ensures NoSlash([seg] + segs)
    ensures Resolve([], [seg] + segs) == Resolve([], segs)
  {
    assert ([seg] + segs)[1..] == segs;
  }

  /** The prefix only pins the path to the root: resolving it first
      changes nothing. */
  lemma SanitizeIgnoresPrefix(f: string)
    ensures SanitizeFilename(f) == Join(Resolve([], Split(f, '/')), '/')
  {
    var s := Split(f, '/');
    SplitDedot(f);
    assert NoSlash(s);
    PrefixVanishes(s);
  }

  lemma PrefixVanishes(s: seq<string>)
    requires NoSlash(s)
    ensures NoSlash(["", "..", "", ""] + s)
    ensures Resolve([], ["", "..", "", ""] + s) == Resolve([], s)
  {
    var p3 := [""] + s;
    var p2 := [""] + p3;
    var p1 := [".."] + p2;
    var p0 := [""] + p1;
    ResolveDrops("", s);
    ResolveDrops("", p3);
    ResolveDrops("..", p2);
    ResolveDrops("", p1);
    assert p0 == ["", "..", "", ""] + s;
  }

  /** Sanitising a sanitised name changes nothing. */
  lemma SanitizeIdempotent(f: string)
    ensures SanitizeFilename(SanitizeFilename(f)) == SanitizeFilename(f)
  {
    SanitizeIgnoresPrefix(f);
    var segs := Resolve([], Split(f, '/'));
    JoinClean(segs);
    var r := Join(segs, '/');
    SanitizeIgnoresPrefix(r);
    if segs == [] {
      assert r == [];
      assert Split(r, '/') == [[]];
      assert Resolve([], [[]]) == Resolve([], []);
    } else {
      ResolveClean([], segs);
      assert [] + segs == segs;
    }
  }

  /** A name made only of clean segments is kept as it is. */
  lemma SanitizeKeepsClean(f: string)
    requires f != [] && Clean(Split(f, '/'))
    ensures SanitizeFilename(f) == f
  {
    SanitizeIgnoresPrefix(f);
    ResolveClean([], Split(f, '/'));
    assert [] + Split(f, '/') == Split(f, '/');
    JoinSplit(f, '/');
  }

  /** A leading ".." cannot climb above the root, so it is dropped. */
  lemma SanitizeLeadingUp(f: string)
    ensures SanitizeFilename("../" + f) == SanitizeFilename(f)
  {
    var up := "..";
    SanitizeIgnoresPrefix(f);
    SanitizeIgnoresPrefix("../" + f);
    SplitAfterPrefix(up, f, '/');
    assert up + ['/'] + f == "../" + f;
    var s := Split(f, '/');
    assert ([up] + s)[1..] == s;
    assert Resolve([], [up] + s) == Resolve([], s);
  }

  /** Climbing out of the output directory is cut off at its root. The
      path and its two segments are parameters pinned by the requires
      rather than literals in the body, so that the solver does not
      evaluate the whole resolution on the literal text. */
  lemma SanitizeEscape(f: string, name: string, etc: string, passwd: string)
    requires etc == "etc" && passwd == "passwd" && name == "etc/passwd"
    requires f == "../../etc/passwd"
    ensures SanitizeFilename(f) == name
  {
    assert f == "../" + ("../" + name);
    SanitizeLeadingUp("../" + name);
    SanitizeLeadingUp(name);
    assert name == etc + ['/'] + passwd;
    SplitNoSep(passwd, '/');
    SplitAfterPrefix(etc, passwd, '/');
    assert Split(name, '/') == [etc, passwd];
    assert CleanSegment(etc) && CleanSegment(passwd);
    SanitizeKeepsClean(name);
  }

  /** The output path: the rendered name with the output extension,
      sanitised, below the output directory, which it cannot leave. */
  function OutputPath(outputDir: string, rendered: string, ext: string): (r: string)
    ensures var s := SanitizeFilename(rendered + "." + ext);
      && (outputDir == [] || outputDir[|outputDir| - 1] == '/' ==> r == outputDir + s)
      && (outputDir != [] && outputDir[|outputDir| - 1] != '/' ==> r == outputDir + "/" + s)
      && (s == [] || s[0] != '/')
  {
    Paths.JoinPath(outputDir, SanitizeFilename(rendered + "." + ext))
  }

  // ---------------------------------------------------------------------
  // Track number padding

  function Zeros(n: nat): (r: string)
    ensures |r| == n && forall k :: 0 <= k < n ==> r[k] == '0'
  {
    seq(n, _ => '0')
  }

  /** `{:0>width$}`: s with zeros put in front until it is width long; a
      longer s is kept whole. */
  function PadLeft(s: string, width: nat): (r: string)
    ensures |r| == Max(|s|, width)
    ensures r == Zeros(|r| - |s|) + s
  {
    if |s| >= width then s else Zeros(width - |s|) + s
  }

  /** Padding of the two track fields: a non-empty tracks gets at least
      minDigits digits, then a non-empty track at least as many as tracks
      (and minDigits); empty fields stay empty and nothing is cut. */
  function PadTrackNumbers(t: Meta.MetaTags, minDigits: nat): (r: Meta.MetaTags)
    ensures r == t.(track := r.track, tracks := r.tracks)
    ensures (r.tracks == "") == (t.tracks == "") && (r.track == "") == (t.track == "")
    ensures t.tracks != "" ==>
      |r.tracks| == Max(|t.tracks|, minDigits) && r.tracks == Zeros(|r.tracks| - |t.tracks|) + t.tracks
    ensures t.track != "" ==>
      |r.track| == Max(|t.track|, Max(|r.tracks|, minDigits)) && r.track == Zeros(|r.track| - |t.track|) + t.track
  {
    var tracks := if t.tracks == "" then "" else PadLeft(t.tracks, minDigits);
    var track := if t.track == "" then "" else PadLeft(t.track, Max(|tracks|, minDigits));
    t.(track := track, tracks := tracks)
  }

  lemma PadExamples(t: Meta.MetaTags, u: Meta.MetaTags)
    requires t.track == "42" && t.tracks == "50"
    requires u.track == "13" && u.tracks == "150"
    ensures PadTrackNumbers(t, 3).track == "042" && PadTrackNumbers(t, 3).tracks == "050"
    ensures PadTrackNumbers(u, 1).track == "013" && PadTrackNumbers(u, 1).tracks == "150"
  {
    assert Zeros(1) == "0";
    assert "0" + "50" == "050";
    assert "0" + "42" == "042";
    assert "0" + "13" == "013";
  }

  // ---------------------------------------------------------------------
  // Metadata arguments

  /** The metadata pair for one tag, added only when the value is not
      empty. */
  function AddMeta(args: seq<string>, val: string, name: string): (r: seq<string>)
    ensures val == "" ==> r == args
    ensures val != "" ==> r == args + ["-metadata", name + "=" + val]
  {
    if val != "" then args + ["-metadata", name + "=" + val] else args
  }

  /** The track tag as written: "track/tracks" when both are known. */
  function TrackValue(t: Meta.MetaTags): (r: string)
    ensures t.track != "" && t.tracks != "" ==> r == t.track + "/" + t.tracks
    ensures !(t.track != "" && t.tracks != "") ==> r == t.track
  {
    if t.track != "" && t.tracks != "" then t.track + "/" + t.tracks else t.track
  }

  /** The tags written into the output, as (name, value), in order. */
  function MetaPairs(t: Meta.MetaTags): seq<(string, string)> {
    [("album", t.album), ("composer", t.composer), ("genre", t.genre), ("title", t.title),
     ("artist", t.artist), ("performer", t.performer), ("disc", t.disc),
     ("publisher", t.publisher), ("date", t.date), ("year", t.year), ("track", TrackValue(t))]
  }

  /** `AddMeta` applied for each pair in turn. */
  function AddMetas(args: seq<string>, pairs: seq<(string, string)>): seq<string>
    decreases |pairs|
  {
    if pairs == [] then args else AddMetas(AddMeta(args, pairs[0].1, pairs[0].0), pairs[1..])
  }

  /** The metadata arguments of the pairs with a value, in order. */
  function Metadata(pairs: seq<(string, string)>): (r: seq<string>)
    ensures |r| % 2 == 0
  {
    if pairs == [] then []
    else (if pairs[0].1 != "" then ["-metadata", pairs[0].0 + "=" + pairs[0].1] else []) + Metadata(pairs[1..])
  }

  /** Adding the pairs one by one appends exactly their metadata
      arguments, keeping what was there. */
  lemma {:induction false} AddMetasAppends(args: seq<string>, pairs: seq<(string, string)>)
    ensures AddMetas(args, pairs) == args + Metadata(pairs)
    decreases |pairs|
  {
    if pairs != [] {
      var next := AddMeta(args, pairs[0].1, pairs[0].0);
      AddMetasAppends(next, pairs[1..]);
    }
  }

  /** Every even position of the metadata arguments is "-metadata" and
      the following one is "name=value" for a pair with a value. */
  lemma {:induction false} MetadataShape(pairs: seq<(string, string)>, k: nat)
    requires k < |Metadata(pairs)| && k % 2 == 0
    ensures Metadata(pairs)[k] == "-metadata"
    ensures exists i :: 0 <= i < |pairs| && pairs[i].1 != "" && Metadata(pairs)[k + 1] == pairs[i].0 + "=" + pairs[i].1
  {
    var head := if pairs[0].1 != "" then ["-metadata", pairs[0].0 + "=" + pairs[0].1] else [];
    if k >= |head| {
      MetadataShape(pairs[1..], k - |head|);
      var i :| 0 <= i < |pairs[1..]| && pairs[1..][i].1 != ""
        && Metadata(pairs[1..])[k - |head| + 1] == pairs[1..][i].0 + "=" + pairs[1..][i].1;
      assert pairs[i + 1] == pairs[1..][i];
    } else {
      assert pairs[0].1 != "";
    }
  }

  /** The audio arguments: the format's own, then the metadata of the
      probed tags. */
  function AudioArgsFor(format: Format, t: Meta.MetaTags): (r: seq<string>)
    ensures r == AudioArgs(format) + Metadata(MetaPairs(t))
  {
    AddMetasAppends(AudioArgs(format), MetaPairs(t));
    AddMetas(AudioArgs(format), MetaPairs(t))
  }

  // ---------------------------------------------------------------------
  // Template validation

  /** The record with "1" in every field. */
  function OnesTags(): (r: Meta.MetaTags)
    ensures forall i :: 0 <= i < Meta.FieldCount ==> Meta.Fields(r)[i] == "1"
  {
    var f := seq(Meta.FieldCount, _ => "1");
    Meta.FieldsRoundTrip(Meta.FromFields(f), f);
    Meta.FromFields(f)
  }

  /** The template is accepted when it renders both with empty tags and
      with every tag set; the first failure is the error. */
  function ValidateTemplate(template: string, render: (string, Meta.MetaTags) -> Result<string>): (r: Result<()>)
    ensures r.Ok? <==> render(template, Meta.EmptyTags()).Ok? && render(template, OnesTags()).Ok?
    ensures render(template, Meta.EmptyTags()).Err? ==> r == Err(render(template, Meta.EmptyTags()).error)
    ensures render(template, Meta.EmptyTags()).Ok? && render(template, OnesTags()).Err? ==>
      r == Err(render(template, OnesTags()).error)
  {
    match render(template, Meta.EmptyTags())
    case Err(e) => Err(e)
    case Ok(_) =>
      match render(template, OnesTags())
      case Err(e) => Err(e)
      case Ok(_) => Ok(())
  }

  // ---------------------------------------------------------------------
  // The transcoder's argument list

  const Preamble: seq<string> := ["-hide_banner", "-nostats", "-loglevel", "warning", "-y"]

  /** The mapping that takes the audio from the file and the picture from
      standard input, labelled as the front cover. */
  const CoverStreamArgs: seq<string> :=
    ["-map", "0:a", "-map", "1:v", "-metadata:s:v", "title=Album cover", "-metadata:s:v", "comment=Cover (front)"]

  /** The cover stream is labelled with the comment the stream scan looks
      for. */
  lemma CoverStreamRecognised()
    ensures CoverStreamArgs[7] == "comment=" + Meta.CoverComment
  {
  }

  /** Where the output's picture comes from: the input's own cover stream,
      converted cover bytes fed through standard input, or nowhere. */
  datatype PicSource = Embedded | External(data: Bytes) | NoPicture

  /** The seek arguments of a CUE track: its start always, its length
      only when it has one. */
  function CueArgs(cue: Option<Cue.CueInfo>, seconds: real -> string): (r: seq<string>)
    ensures cue.None? ==> r == []
    ensures cue.Some? ==> |r| >= 2 && r[..2] == ["-ss:a", seconds(cue.value.start)]
    ensures cue.Some? ==> (|r| == 4 <==> cue.value.duration.Some? && seconds(cue.value.duration.value) != "")
    ensures cue.Some? && |r| == 4 ==> r[2..] == ["-t:a", seconds(cue.value.duration.value)]
    ensures |r| == 0 || |r| == 2 || |r| == 4
  {
    match cue
    case None => []
    case Some(c) =>
      var d := if c.duration.Some? then seconds(c.duration.value) else "";
      ["-ss:a", seconds(c.start)] + (if d != "" then ["-t:a", d] else [])
  }

  /** The arguments between the input and the user's options. */
  function GeneratedArgs(pic: PicSource, audioArgs: seq<string>, app: Args.AppArgs, format: Format, normalize: (Format, nat) -> nat): seq<string> {
    match pic
    case Embedded => audioArgs + Pics.FfmpegConvPicArgs(app, format, normalize)
    case External(_) =>
      ["-i", "-"] + audioArgs + CoverStreamArgs
      + (match format
         case MP3 => ["-c:v", "copy"]
         case Ogg => ["-c:v", "libtheora"] + Pics.FfmpegConvPicArgs(app, format, normalize))
    case NoPicture => audioArgs
  }

  /** The whole argument list: the preamble, the seek arguments, the
      input, the generated arguments, the user's options, and the output
      path last. */
  function CommandArgs(item: Item, pic: PicSource, audioArgs: seq<string>, app: Args.AppArgs, format: Format,
                       world: World, outputPath: string): (r: seq<string>)
    ensures |r| == |Preamble| + |CueArgs(item.cue, world.seconds)| + 2
      + |GeneratedArgs(pic, audioArgs, app, format, world.normalizeQuality)| + |app.ffmpegOpts| + 1
    ensures r[..|Preamble|] == Preamble
    ensures var c := CueArgs(item.cue, world.seconds);
      && r[|Preamble|..|Preamble| + |c|] == c
      && r[|Preamble| + |c|..|Preamble| + |c| + 2] == ["-i", item.filename]
      && r[|Preamble| + |c| + 2..|r| - 1 - |app.ffmpegOpts|]
         == GeneratedArgs(pic, audioArgs, app, format, world.normalizeQuality)
    ensures r[|r| - 1 - |app.ffmpegOpts|..|r| - 1] == app.ffmpegOpts
    ensures r[|r| - 1] == outputPath
  {
    var c := CueArgs(item.cue, world.seconds);
    var g := GeneratedArgs(pic, audioArgs, app, format, world.normalizeQuality);
    Pieces(Preamble, c, ["-i", item.filename], g, app.ffmpegOpts, outputPath);
    Preamble + c + ["-i", item.filename] + g + app.ffmpegOpts + [outputPath]
  }

  /** Where each piece of a command line built by concatenation sits. */
  lemma Pieces<T>(a: seq<T>, b: seq<T>, c: seq<T>, d: seq<T>, e: seq<T>, x: T)
    ensures var r := a + b + c + d + e + [x];
      && |r| == |a| + |b| + |c| + |d| + |e| + 1
      && r[..|a|] == a
      && r[|a|..|a| + |b|] == b
      && r[|a| + |b|..|a| + |b| + |c|] == c
      && r[|a| + |b| + |c|..|r| - 1 - |e|] == d
      && r[|r| - 1 - |e|..|r| - 1] == e
      && r[|r| - 1] == x
  {
    var r := a + b + c + d + e + [x];
    assert r[..|a|] == a;
    assert r[|a|..|a| + |b|] == b;
    assert r[|a| + |b|..|a| + |b| + |c|] == c;
    assert r[|a| + |b| + |c|..|r| - 1 - |e|] == d;
    assert r[|r| - 1 - |e|..|r| - 1] == e;
  }

  // ---------------------------------------------------------------------
  // The outcome of converting one item

  /** What the probe tells about the input: whether it carries a cover
      stream, and its tags. */
  datatype Probed = Probed(hasPic: bool, tags: Meta.MetaTags)

  ghost function ProbeOf(item: Item, world: World): Result<Probed> {
    match world.probe(item.filename)
    case Err(e) => Err(e)
    case Ok(p) =>
      Ok(Probed(Meta.LastCover(p.streams).Some?,
        Meta.TagsOf(p.formatTags.GetOr(map[]), world.canonicalize(item.filename), item.cue)))
  }

  /** The tags the file name is rendered from: fallbacks filled, track
      numbers padded, every field made safe for a file name. */
  function FilenameTags(probed: Meta.MetaTags, app: Args.AppArgs, world: World): Meta.MetaTags {
    Meta.SanitizeTags(PadTrackNumbers(Meta.FillFallback(probed), app.minTrackNumberDigits), world.filesafe)
  }

  /** The input's directory, what the probe tells, and the output path;
      or the first failure among them. */
  ghost function Target(item: Item, app: Args.AppArgs, world: World): Result<(string, Probed, string)> {
    match world.inputDir(item.filename)
    case Err(e) => Err(e)
    case Ok(dir) =>
      match ProbeOf(item, world)
      case Err(e) => Err(e)
      case Ok(probed) =>
        match OutputOf(probed.tags, app, world)
        case Err(e) => Err(e)
        case Ok(path) => Ok((dir, probed, path))
  }

  /** The output path rendered from the probed tags, or the rendering's
      failure. */
  ghost function OutputOf(tags: Meta.MetaTags, app: Args.AppArgs, world: World): Result<string> {
    match world.render(app.filenameTemplate, FilenameTags(tags, app, world))
    case Err(e) => Err(e)
    case Ok(name) => Ok(OutputPath(app.outputDir, name, app.outputExt))
  }

  /** The checks before anything is run: the output path needs a parent
      directory, must not exist unless overwriting is allowed, and outside
      a dry run its directory is created. */
  function Checked(path: string, app: Args.AppArgs, world: World): (r: Result<()>)
    ensures r.Ok? ==> Paths.HasParent(path) && (app.overwrite || !world.pathExists(path))
    ensures !Paths.HasParent(path) ==> r == Err("no parent for " + path)
    ensures Paths.HasParent(path) && !app.overwrite && world.pathExists(path) ==> r == Err("file exists: " + path)
    ensures app.dryRun ==> (r.Ok? <==> Paths.HasParent(path) && (app.overwrite || !world.pathExists(path)))
    ensures !app.dryRun && r.Ok? ==> world.createDirs(path).Ok?
  {
    if !Paths.HasParent(path) then Err("no parent for " + path)
    else if !app.overwrite && world.pathExists(path) then Err("file exists: " + path)
    else if !app.dryRun && world.createDirs(path).Err? then Err(world.createDirs(path).error)
    else Ok(())
  }

  /** The cover file next to the input, if any. */
  function CoverIn(dir: string, app: Args.AppArgs, world: World): Option<string> {
    match world.listDir(dir)
    case Unreadable => None
    case Listing(entries) => Pics.CoverScan(entries, app.coverNames, app.coverExts)
  }

  /** The cover file whose conversion the picture choice asks for: none
      when the input's own picture is used. */
  function PicKey(hasPic: bool, dir: string, app: Args.AppArgs, world: World): (r: Option<string>)
    ensures hasPic && app.useEmbedPic ==> r.None?
    ensures !(hasPic && app.useEmbedPic) ==> r == CoverIn(dir, app, world)
  {
    if hasPic && app.useEmbedPic then None else CoverIn(dir, app, world)
  }

  /** The picture for the output: the input's own when it has one and
      that is wanted; otherwise a cover file's, which must convert. */
  function PicFor(hasPic: bool, dir: string, app: Args.AppArgs, format: Format, world: World): (r: Result<PicSource>)
    ensures hasPic && app.useEmbedPic ==> r == Ok(Embedded)
    ensures r.Err? ==> (
      && CoverIn(dir, app, world).Some?
      && Pics.ConvPic(CoverIn(dir, app, world).value, app, format, world).None?
      && r.error == "can't convert: " + CoverIn(dir, app, world).value)
    ensures r == Ok(NoPicture) <==> !(hasPic && app.useEmbedPic) && CoverIn(dir, app, world).None?
  {
    if hasPic && app.useEmbedPic then Ok(Embedded)
    else
      match CoverIn(dir, app, world)
      case None => Ok(NoPicture)
      case Some(p) =>
        match Pics.ConvPic(p, app, format, world)
        case None => Err("can't convert: " + p)
        case Some(data) => Ok(External(data))
  }

  /** Running the transcoder, or not in a dry run. */
  function Finish(args: seq<string>, stdin: Option<Bytes>, outputPath: string, app: Args.AppArgs, world: World): (r: Result<string>)
    ensures r.Ok? ==> r.value == outputPath
    ensures app.dryRun ==> r == Ok(outputPath)
    ensures !app.dryRun && world.runAudio(args, stdin).Err? ==> r == Err(world.runAudio(args, stdin).error)
    ensures !app.dryRun && world.runAudio(args, stdin).Ok? ==>
      var out := world.runAudio(args, stdin).value;
      (r.Ok? <==> out.code == Some(0)) && (out.code.Some? && out.code.value != 0 ==> r == Err(out.stderr))
  {
    if app.dryRun then Ok(outputPath)
    else
      match world.runAudio(args, stdin)
      case Err(e) => Err(e)
      case Ok(out) =>
        if out.code.None? then Err("Cannot get the exit code")
        else if out.code.value != 0 then Err(out.stderr)
        else Ok(outputPath)
  }

  /** The bytes fed to the transcoder: the converted cover, if that is the
      picture. */
  function StdinOf(pic: PicSource): Option<Bytes> {
    if pic.External? then Some(pic.data) else None
  }

  /** Everything after the checks: the picture, the argument list and the
      transcoder run. In a dry run it succeeds exactly when the picture
      can be had. */
  function RunWith(item: Item, probed: Probed, dir: string, path: string, app: Args.AppArgs, format: Format, world: World): (r: Result<string>)
    ensures r.Ok? ==> r.value == path
    ensures app.dryRun ==> (r.Ok? <==> PicFor(probed.hasPic, dir, app, format, world).Ok?)
    ensures PicFor(probed.hasPic, dir, app, format, world).Err? ==>
      r == Err(PicFor(probed.hasPic, dir, app, format, world).error)
  {
    match PicFor(probed.hasPic, dir, app, format, world)
    case Err(e) => Err(e)
    case Ok(pic) =>
      Finish(CommandArgs(item, pic, AudioArgsFor(format, probed.tags), app, format, world, path), StdinOf(pic), path, app, world)
  }

  /** What converting an item comes to: its output path, or the first
      failure. */
  ghost function ConvOutcome(item: Item, app: Args.AppArgs, format: Format, world: World): Result<string>
  {
    match Target(item, app, world)
    case Err(e) => Err(e)
    case Ok((dir, probed, path)) =>
      match Checked(path, app, world)
      case Err(e) => Err(e)
      case Ok(_) => RunWith(item, probed, dir, path, app, format, world)
  }

  /** The cover file an item's conversion looks up in the picture cache:
      none when it fails before the picture is chosen. */
  ghost function ItemPicKey(item: Item, app: Args.AppArgs, world: World): Option<string> {
    match Target(item, app, world)
    case Err(_) => None
    case Ok((dir, probed, path)) =>
      if Checked(path, app, world).Err? then None else PicKey(probed.hasPic, dir, app, world)
  }

  /** A successful conversion yields the item's output path, which does
      not exist beforehand unless overwriting is allowed; a failure to
      find that path or a failed check is the outcome's error. */
  lemma ConvOutcomeFacts(item: Item, app: Args.AppArgs, format: Format, world: World)
    ensures ConvOutcome(item, app, format, world).Ok? ==>
      && Target(item, app, world).Ok?
      && ConvOutcome(item, app, format, world).value == Target(item, app, world).value.2
      && (app.overwrite || !world.pathExists(ConvOutcome(item, app, format, world).value))
    ensures Target(item, app, world).Err? ==> ConvOutcome(item, app, format, world) == Err(Target(item, app, world).error)
    ensures (Target(item, app, world).Ok? && Checked(Target(item, app, world).value.2, app, world).Err?) ==>
      ConvOutcome(item, app, format, world) == Err(Checked(Target(item, app, world).value.2, app, world).error)
  {
  }

  /** Creating directories and running the transcoder are the only
      effects a dry run skips: it comes to the same outcome whatever they
      would do, and an item whose checks pass and whose picture can be had
      succeeds with its output path. */
  lemma DryRun(item: Item, app: Args.AppArgs, format: Format, world: World,
               createDirs: string -> Result<()>, runAudio: (seq<string>, Option<Bytes>) -> Result<ProcOutput>)
    requires app.dryRun
    ensures ConvOutcome(item, app, format, world.(createDirs := createDirs, runAudio := runAudio))
         == ConvOutcome(item, app, format, world)
    ensures var t := Target(item, app, world);
      (t.Ok? && Checked(t.value.2, app, world).Ok?
       && PicFor(t.value.1.hasPic, t.value.0, app, format, world).Ok?) ==>
      ConvOutcome(item, app, format, world) == Ok(t.value.2)
  {
    var w := world.(createDirs := createDirs, runAudio := runAudio);
    SameTarget(item, app, world, w);
    var t := Target(item, app, world);
    if t.Ok? {
      var (dir, probed, path) := t.value;
      assert Checked(path, app, w) == Checked(path, app, world);
      SamePicture(probed.hasPic, dir, app, format, world, w);
      var pic := PicFor(probed.hasPic, dir, app, format, world);
      var a := RunWith(item, probed, dir, path, app, format, w);
      var b := RunWith(item, probed, dir, path, app, format, world);
      assert a == b by {
        if pic.Ok? {
          assert a == Ok(path) && b == Ok(path);
        }
      }
    }
  }

  /** The output path does not depend on the transcoder, the directory
      creation, the listings or the picture conversion. */
  lemma SameTarget(item: Item, app: Args.AppArgs, world: World, w: World)
    requires w.inputDir == world.inputDir && w.probe == world.probe && w.canonicalize == world.canonicalize
    requires w.render == world.render && w.filesafe == world.filesafe
    ensures Target(item, app, w) == Target(item, app, world)
  {
    assert ProbeOf(item, w) == ProbeOf(item, world);
  }

  /** The picture does not depend on the audio transcoder or the directory
      creation. */
  lemma SamePicture(hasPic: bool, dir: string, app: Args.AppArgs, format: Format, world: World, w: World)
    requires w.listDir == world.listDir && w.readFile == world.readFile && w.runPicture == world.runPicture
    requires w.normalizeQuality == world.normalizeQuality
    ensures PicFor(hasPic, dir, app, format, w) == PicFor(hasPic, dir, app, format, world)
  {
    assert CoverIn(dir, app, w) == CoverIn(dir, app, world);
  }

  // ---------------------------------------------------------------------
  // The conversion, step by step

  /** The steps up to the output path: the input's directory, the probe,
      the fallbacks, the padding, the sanitising and the rendering. */
  method PrepareTarget(item: Item, app: Args.AppArgs, world: World) returns (r: Result<(string, Probed, string)>)
    ensures r == Target(item, app, world)
  {
    var inputDir := world.inputDir(item.filename);
    if inputDir.Err? {
      return Err(inputDir.error);
    }
    var meta := Meta.ExtractMeta(world.probe(item.filename), world.canonicalize(item.filename), item.cue);
    if meta.Err? {
      return Err(meta.error);
    }
    var probed := Probed(meta.value.hasPic, meta.value.tags);
    assert ProbeOf(item, world) == Ok(probed);

    var outputPath := RenderOutput(meta.value.tags, app, world);
    if outputPath.Err? {
      return Err(outputPath.error);
    }
    return Ok((inputDir.value, probed, outputPath.value));
  }

  /** The fallbacks, the padding, the sanitising and the rendering. */
  method RenderOutput(probedTags: Meta.MetaTags, app: Args.AppArgs, world: World) returns (r: Result<string>)
    ensures r == OutputOf(probedTags, app, world)
  {
    var tags := Meta.FillFallback(probedTags);
    tags := PadTags(tags, app.minTrackNumberDigits);
    var filenameTags := Meta.SanitizeTags(tags, world.filesafe);
    var rendered := world.render(app.filenameTemplate, filenameTags);
    if rendered.Err? {
      return Err(rendered.error);
    }
    var outputFilename := SanitizeFilename(rendered.value + "." + app.outputExt);
    return Ok(Paths.JoinPath(app.outputDir, outputFilename));
  }

  /** The padding of the track fields, one field after the other. */
  method PadTags(t: Meta.MetaTags, minDigits: nat) returns (tags: Meta.MetaTags)
    ensures tags == PadTrackNumbers(t, minDigits)
  {
    tags := t;
    if tags.tracks != "" {
      tags := tags.(tracks := PadLeft(tags.tracks, minDigits));
    }
    if tags.track != "" {
      tags := tags.(track := PadLeft(tags.track, Max(|tags.tracks|, minDigits)));
    }
  }

  /** One step of `AddMetas`: the first pair is added, then the rest. */
  lemma AddMetasCons(args: seq<string>, name: string, val: string, rest: seq<(string, string)>)
    ensures AddMetas(args, [(name, val)] + rest) == AddMetas(AddMeta(args, val, name), rest)
  {
    assert ([(name, val)] + rest)[1..] == rest;
  }

  /** The audio arguments built as `conv_item` does: the format's own,
      then eleven `AddMeta` steps. */
  method MetadataArgs(format: Format, t: Meta.MetaTags) returns (audioArgs: seq<string>)
    ensures audioArgs == AudioArgsFor(format, t)
  {
    ghost var r11: seq<(string, string)> := [];
    ghost var r10 := [("track", TrackValue(t))] + r11;
    ghost var r9 := [("year", t.year)] + r10;
    ghost var r8 := [("date", t.date)] + r9;
    ghost var r7 := [("publisher", t.publisher)] + r8;
    ghost var r6 := [("disc", t.disc)] + r7;
    ghost var r5 := [("performer", t.performer)] + r6;
    ghost var r4 := [("artist", t.artist)] + r5;
    ghost var r3 := [("title", t.title)] + r4;
    ghost var r2 := [("genre", t.genre)] + r3;
    ghost var r1 := [("composer", t.composer)] + r2;
    ghost var r0 := [("album", t.album)] + r1;
    assert r0 == MetaPairs(t);
    ghost var goal := AddMetas(AudioArgs(format), r0);

    audioArgs := AudioArgs(format);
    AddMetasCons(audioArgs, "album", t.album, r1);
    audioArgs := AddMeta(audioArgs, t.album, "album");
    AddMetasCons(audioArgs, "composer", t.composer, r2);
    audioArgs := AddMeta(audioArgs, t.composer, "composer");
    AddMetasCons(audioArgs, "genre", t.genre, r3);
    audioArgs := AddMeta(audioArgs, t.genre, "genre");
    AddMetasCons(audioArgs, "title", t.title, r4);
    audioArgs := AddMeta(audioArgs, t.title, "title");
    AddMetasCons(audioArgs, "artist", t.artist, r5);
    audioArgs := AddMeta(audioArgs, t.artist, "artist");
    AddMetasCons(audioArgs, "performer", t.performer, r6);
    audioArgs := AddMeta(audioArgs, t.performer, "performer");
    AddMetasCons(audioArgs, "disc", t.disc, r7);
    audioArgs := AddMeta(audioArgs, t.disc, "disc");
    AddMetasCons(audioArgs, "publisher", t.publisher, r8);
    audioArgs := AddMeta(audioArgs, t.publisher, "publisher");
    AddMetasCons(audioArgs, "date", t.date, r9);
    audioArgs := AddMeta(audioArgs, t.date, "date");
    AddMetasCons(audioArgs, "year", t.year, r10);
    audioArgs := AddMeta(audioArgs, t.year, "year");
    AddMetasCons(audioArgs, "track", TrackValue(t), r11);
    if t.track != "" && t.tracks != "" {
      audioArgs := AddMeta(audioArgs, t.track + "/" + t.tracks, "track");
    } else {
      audioArgs := AddMeta(audioArgs, t.track, "track");
    }
    assert goal == AddMetas(audioArgs, r11);
  }

  /** The preamble, then the seek arguments of a CUE track. */
  method SeekArgs(cue: Option<Cue.CueInfo>, seconds: real -> string) returns (args: seq<string>)
    ensures args == Preamble + CueArgs(cue, seconds)
  {
    args := Preamble;
    if cue.Some? {
      args := args + ["-ss:a", seconds(cue.value.start)];
      var durationStr := if cue.value.duration.Some? then seconds(cue.value.duration.value) else "";
      if durationStr != "" {
        args := args + ["-t:a", durationStr];
      }
    }
  }

  /** The picture for the output, the cover file's conversion going
      through the shared cache. */
  method ChoosePicture(pics: Pics.PicsMap, hasPic: bool, inputDir: string, app: Args.AppArgs, format: Format, world: World)
    returns (r: Result<PicSource>)
    requires pics.Valid() && Pics.Coherent(pics.table.entries, app, format, world)
    modifies pics.table
    ensures pics.Valid() && Pics.Coherent(pics.table.entries, app, format, world)
    ensures r == PicFor(hasPic, inputDir, app, format, world)
    ensures Pics.CacheStep(old(pics.table.entries), old(pics.table.computations),
                           pics.table.entries, pics.table.computations, PicKey(hasPic, inputDir, app, world),
                           app, format, world)
  {
    if hasPic && app.useEmbedPic {
      return Ok(Embedded);
    }
    var picFile := Pics.FindCoverInDir(inputDir, app.coverNames, app.coverExts, world);
    assert picFile == CoverIn(inputDir, app, world);
    if picFile.None? {
      return Ok(NoPicture);
    }
    var data := Pics.ConvPicIfNeeded(pics, picFile.value, app, format, world);
    if data.None? {
      return Err("can't convert: " + picFile.value);
    }
    return Ok(External(data.value));
  }

  /** The arguments that depend on the picture, appended to args. */
  method AppendGenerated(args: seq<string>, pic: PicSource, audioArgs: seq<string>, app: Args.AppArgs, format: Format,
                         normalize: (Format, nat) -> nat) returns (r: seq<string>)
    ensures r == args + GeneratedArgs(pic, audioArgs, app, format, normalize)
  {
    r := args;
    match pic {
      case Embedded =>
        r := r + audioArgs;
        r := r + Pics.FfmpegConvPicArgs(app, format, normalize);
        AppendAssoc(args, audioArgs, Pics.FfmpegConvPicArgs(app, format, normalize));
      case External(_) =>
        r := r + ["-i", "-"];
        r := r + audioArgs;
        r := r + CoverStreamArgs;
        AppendAssoc(args, ["-i", "-"], audioArgs);
        AppendAssoc(args, ["-i", "-"] + audioArgs, CoverStreamArgs);
        ghost var head := ["-i", "-"] + audioArgs + CoverStreamArgs;
        assert r == args + head;
        match format {
          case MP3 =>
            r := r + ["-c:v", "copy"];
            AppendAssoc(args, head, ["-c:v", "copy"]);
          case Ogg =>
            r := r + ["-c:v", "libtheora"];
            r := r + Pics.FfmpegConvPicArgs(app, format, normalize);
            AppendAssoc(args + head, ["-c:v", "libtheora"], Pics.FfmpegConvPicArgs(app, format, normalize));
            AppendAssoc(args, head, ["-c:v", "libtheora"] + Pics.FfmpegConvPicArgs(app, format, normalize));
        }
      case NoPicture =>
        r := r + audioArgs;
    }
  }

  /** Appending in two steps is appending the two pieces joined. */
  lemma AppendAssoc<T>(a: seq<T>, b: seq<T>, c: seq<T>)
    ensures (a + b) + c == a + (b + c)
  {
  }

  /** The transcoder run on the finished argument list, skipped in a dry
      run; a non-zero exit code fails with the transcoder's error text. */
  method RunTranscoder(args: seq<string>, pic: PicSource, outputPath: string, app: Args.AppArgs, world: World)
    returns (r: Result<string>)
    ensures r == Finish(args, StdinOf(pic), outputPath, app, world)
  {
    var output: Option<ProcOutput> := None;
    if !app.dryRun {
      var run := world.runAudio(args, if pic.External? then Some(pic.data) else None);
      if run.Err? {
        return Err(run.error);
      }
      output := Some(run.value);
    }
    if output.Some? {
      if output.value.code.None? {
        return Err("Cannot get the exit code");
      }
      if output.value.code.value != 0 {
        return Err(output.value.stderr);
      }
    }
    return Ok(outputPath);
  }

  /** Everything after the checks: the argument list built up piece by
      piece, the cover found and converted through the cache when the
      input's own picture is not used, and the transcoder run. */
  method RunConversion(item: Item, pics: Pics.PicsMap, probed: Probed, inputDir: string, outputPath: string,
                       app: Args.AppArgs, format: Format, world: World) returns (r: Result<string>)
    requires pics.Valid() && Pics.Coherent(pics.table.entries, app, format, world)
    modifies pics.table
    ensures pics.Valid() && Pics.Coherent(pics.table.entries, app, format, world)
    ensures r == RunWith(item, probed, inputDir, outputPath, app, format, world)
    ensures Pics.CacheStep(old(pics.table.entries), old(pics.table.computations),
                           pics.table.entries, pics.table.computations, PicKey(probed.hasPic, inputDir, app, world),
                           app, format, world)
  {
    var audioArgs := MetadataArgs(format, probed.tags);
    var args := SeekArgs(item.cue, world.seconds);
    args := args + ["-i", item.filename];
    var pic := ChoosePicture(pics, probed.hasPic, inputDir, app, format, world);
    if pic.Err? {
      return Err(pic.error);
    }
    args := AppendGenerated(args, pic.value, audioArgs, app, format, world.normalizeQuality);
    args := args + app.ffmpegOpts + [outputPath];
    assert args == CommandArgs(item, pic.value, audioArgs, app, format, world, outputPath);
    r := RunTranscoder(args, pic.value, outputPath, app, world);
  }

  /** The conversion of one item: the output path, the checks, then the
      run; the cover conversion goes through the shared cache, which stays
      coherent. */
  method ConvItem(item: Item, pics: Pics.PicsMap, app: Args.AppArgs, format: Format, world: World)
    returns (r: Result<string>)
    requires pics.Valid() && Pics.Coherent(pics.table.entries, app, format, world)
    modifies pics.table
    ensures pics.Valid() && Pics.Coherent(pics.table.entries, app, format, world)
    ensures r == ConvOutcome(item, app, format, world)
    ensures Pics.CacheStep(old(pics.table.entries), old(pics.table.computations),
                           pics.table.entries, pics.table.computations, ItemPicKey(item, app, world),
                           app, format, world)
  {
    var target := PrepareTarget(item, app, world);
    if target.Err? {
      return Err(target.error);
    }
    var (inputDir, probed, outputPath) := target.value;
    r := CheckedRun(item, pics, probed, inputDir, outputPath, app, format, world);
  }

  /** The checks on the output path, then the run: a failed check ends
      the conversion before the picture cache is consulted. */
  method CheckedRun(item: Item, pics: Pics.PicsMap, probed: Probed, inputDir: string, outputPath: string,
                    app: Args.AppArgs, format: Format, world: World) returns (r: Result<string>)
    requires pics.Valid() && Pics.Coherent(pics.table.entries, app, format, world)
    modifies pics.table
    ensures pics.Valid() && Pics.Coherent(pics.table.entries, app, format, world)
    ensures Checked(outputPath, app, world).Err? ==>
      && r == Err(Checked(outputPath, app, world).error)
      && pics.table.entries == old(pics.table.entries)
      && pics.table.computations == old(pics.table.computations)
    ensures Checked(outputPath, app, world).Ok? ==>
      && r == RunWith(item, probed, inputDir, outputPath, app, format, world)
      && Pics.CacheStep(old(pics.table.entries), old(pics.table.computations),
                        pics.table.entries, pics.table.computations, PicKey(probed.hasPic, inputDir, app, world),
                        app, format, world)
  {
    if !Paths.HasParent(outputPath) {
      return Err("no parent for " + outputPath);
    }
    if !app.overwrite && world.pathExists(outputPath) {
      return Err("file exists: " + outputPath);
    }
    if !app.dryRun {
      var made := world.createDirs(outputPath);
      if made.Err? {
        return Err(made.error);
      }
    }
    assert Checked(outputPath, app, world) == Ok(());
    r := RunConversion(item, pics, probed, inputDir, outputPath, app, format, world);
  }
}
