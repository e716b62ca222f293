/** The tag record of an audio file: the container's tags as ffprobe
    reports them, normalised and looked up by priority lists, overlaid with
    the CUE sheet's values, with the "N/M" track form split, and the
    fallbacks used for naming the output file; plus the scan of the
    streams for an embedded cover. */
module Meta {
  import opened Wrappers
  import opened Text
  import Paths
  import Cue

  // ---------------------------------------------------------------------
  // The probe's report

  /** A JSON value of the format's tag map: only strings are used. */
  datatype Value = Str(s: string) | NonString

  datatype StreamTags = StreamTags(comment: Option<string>)

  datatype Stream = Stream(codecType: string, width: Option<nat>, height: Option<nat>, tags: Option<StreamTags>)

  /** The decoded report: the streams and the format's tag map, if any. */
  datatype Probe = Probe(streams: seq<Stream>, formatTags: Option<map<string, Value>>)

  const VideoCodec: string := "video"
  const CoverComment: string := "Cover (front)"

  // ---------------------------------------------------------------------
  // The tag record

  datatype MetaTags = MetaTags(
    title: string,
    album: string,
    artist: string,
    catalogNumber: string,
    author: string,
    comment: string,
    composer: string,
    lyricist: string,
    songwriter: string,
    date: string,
    disc: string,
    discs: string,
    discId: string,
    track: string,
    tracks: string,
    genre: string,
    musicLabel: string,
    performer: string,
    publisher: string,
    year: string,
    fileName: string,
    dirName: string,
    fileBase: string,
    fileExt: string)

  datatype FileMeta = FileMeta(hasPic: bool, picWidth: nat, picHeight: nat, tags: MetaTags)

  const FieldCount: nat := 24

  /** The fields in declaration order. */
  function Fields(t: MetaTags): (r: seq<string>)
    ensures |r| == FieldCount
  {
    [t.title, t.album, t.artist, t.catalogNumber, t.author, t.comment, t.composer,
     t.lyricist, t.songwriter, t.date, t.disc, t.discs, t.discId, t.track, t.tracks,
     t.genre, t.musicLabel, t.performer, t.publisher, t.year, t.fileName, t.dirName,
     t.fileBase, t.fileExt]
  }

  function FromFields(f: seq<string>): MetaTags
    requires |f| == FieldCount
  {
    MetaTags(f[0], f[1], f[2], f[3], f[4], f[5], f[6], f[7], f[8], f[9], f[10], f[11],
             f[12], f[13], f[14], f[15], f[16], f[17], f[18], f[19], f[20], f[21], f[22], f[23])
  }

  lemma FieldsRoundTrip(t: MetaTags, f: seq<string>)
    requires |f| == FieldCount
    ensures FromFields(Fields(t)) == t
    ensures Fields(FromFields(f)) == f
  {
  }

  /** The record `Default` gives: every field empty. */
  function EmptyTags(): (r: MetaTags)
    ensures forall i :: 0 <= i < FieldCount ==> Fields(r)[i] == ""
  {
    FromFields(seq(FieldCount, _ => ""))
  }

  // ---------------------------------------------------------------------
  // Key normalisation

  /** What one character of a key leaves after `to_lowercase` and removing
      everything outside a-z: an ASCII letter, lower-cased; the Kelvin sign
      (lower-cased to 'k'); the dotted capital I (lower-cased to 'i' and a
      combining dot, which is then removed); nothing otherwise. */
  function NormChars(c: char): (r: string)
    ensures forall k :: 0 <= k < |r| ==> 'a' <= r[k] <= 'z'
  {
    if 'a' <= c <= 'z' then [c]
    else if 'A' <= c <= 'Z' then [LowerChar(c)]
    else if c == '\U{212A}' then "k"
    else if c == '\U{0130}' then "i"
    else []
  }

  /** A key lower-cased with everything but a-z removed. */
  function Normalize(key: string): (r: string)
    ensures forall k :: 0 <= k < |r| ==> 'a' <= r[k] <= 'z'
    ensures |r| <= |key|
  {
    if key == [] then [] else NormChars(key[0]) + Normalize(key[1..])
  }

  lemma {:induction false} NormalizeLowerLetters(key: string)
    requires forall k :: 0 <= k < |key| ==> 'a' <= key[k] <= 'z'
    ensures Normalize(key) == key
  {
    if key != [] {
      NormalizeLowerLetters(key[1..]);
      assert [key[0]] + key[1..] == key;
    }
  }

  /** The order in which keys are visited: by lower-cased key, and by the
      key itself when the lower-cased keys are equal. */
  predicate KeyLess(a: string, b: string) {
    LexLess(Lower(a), Lower(b)) || (Lower(a) == Lower(b) && LexLess(a, b))
  }

  lemma KeyLessIrreflexive(a: string)
    ensures !KeyLess(a, a)
  {
    LexLessIrreflexive(Lower(a));
    LexLessIrreflexive(a);
  }

  lemma KeyLessTransitive(a: string, b: string, c: string)
    requires KeyLess(a, b) && KeyLess(b, c)
    ensures KeyLess(a, c)
  {
    if LexLess(Lower(a), Lower(b)) && LexLess(Lower(b), Lower(c)) {
      LexLessTransitive(Lower(a), Lower(b), Lower(c));
    } else if Lower(a) == Lower(b) && Lower(b) == Lower(c) {
      LexLessTransitive(a, b, c);
    }
  }

  lemma KeyLessTotal(a: string, b: string)
    requires a != b
    ensures KeyLess(a, b) || KeyLess(b, a)
  {
    if Lower(a) != Lower(b) {
      LexLessTotal(Lower(a), Lower(b));
    } else {
      LexLessTotal(a, b);
    }
  }

  lemma KeyLessAsymmetric(a: string, b: string)
    requires KeyLess(a, b)
    ensures !KeyLess(b, a)
  {
    if KeyLess(b, a) {
      KeyLessTransitive(a, b, a);
      KeyLessIrreflexive(a);
    }
  }

  predicate StrictlySorted(s: seq<string>) {
    forall i, j :: 0 <= i < j < |s| ==> KeyLess(s[i], s[j])
  }

  /** `s` lists the keys of `keys` in visiting order. */
  ghost predicate SortedOf(s: seq<string>, keys: set<string>) {
    StrictlySorted(s) && (forall k :: k in s <==> k in keys)
  }

  /** Inserts a key into a sorted list at its place. */
  function Insert(s: seq<string>, k: string): (r: seq<string>)
    ensures |r| == |s| + 1
    ensures forall x :: x in r <==> x in s || x == k
  {
    if s == [] then [k]
    else if KeyLess(k, s[0]) then [k] + s
    else [s[0]] + Insert(s[1..], k)
  }

  lemma {:induction false} InsertSorted(s: seq<string>, k: string)
    requires StrictlySorted(s) && k !in s
    ensures StrictlySorted(Insert(s, k))
  {
    if s != [] {
      if KeyLess(k, s[0]) {
        forall j | 0 <= j < |s|
          ensures KeyLess(k, s[j])
        {
          if j > 0 {
            KeyLessTransitive(k, s[0], s[j]);
          }
        }
      } else {
        KeyLessTotal(k, s[0]);
        assert k !in s[1..];
        InsertSorted(s[1..], k);
        var rest := Insert(s[1..], k);
        forall j | 0 <= j < |rest|
          ensures KeyLess(s[0], rest[j])
        {
          assert rest[j] in rest;
        }
      }
    }
  }

  lemma {:induction false} SortedExists(keys: set<string>)
    ensures exists s :: SortedOf(s, keys)
    decreases |keys|
  {
    if keys == {} {
      assert SortedOf([], keys);
    } else {
      var k :| k in keys;
      SortedExists(keys - {k});
      var s :| SortedOf(s, keys - {k});
      InsertSorted(s, k);
      assert SortedOf(Insert(s, k), keys);
    }
  }

  /** Two sorted listings of the same keys are the same listing. */
  lemma {:induction false} SortedUnique(a: seq<string>, b: seq<string>, keys: set<string>)
    requires SortedOf(a, keys) && SortedOf(b, keys)
    ensures a == b
    decreases |a|
  {
    SortedEmpty(a, keys);
    SortedEmpty(b, keys);
    if a != [] {
      if a[0] != b[0] {
        assert b[0] in a;
        assert a[0] in b;
        var i :| 0 <= i < |a| && a[i] == b[0];
        var j :| 0 <= j < |b| && b[j] == a[0];
        assert KeyLess(a[0], b[0]);
        assert KeyLess(b[0], a[0]);
        KeyLessAsymmetric(a[0], b[0]);
      }
      SortedTail(a);
      SortedTail(b);
      SortedUnique(a[1..], b[1..], set x | x in a[1..]);
    }
  }

  lemma SortedEmpty(a: seq<string>, keys: set<string>)
    requires SortedOf(a, keys)
    ensures a == [] <==> keys == {}
  {
    if a != [] {
      assert a[0] in keys;
    }
  }

  lemma SortedTail(a: seq<string>)
    requires StrictlySorted(a) && a != []
    ensures StrictlySorted(a[1..])
    ensures forall x :: x in a[1..] <==> x in a && x != a[0]
  {
    forall x | x in a[1..]
      ensures x != a[0]
    {
      var i :| 0 <= i < |a| - 1 && a[1..][i] == x;
      assert KeyLess(a[0], a[i + 1]);
      KeyLessIrreflexive(x);
    }
    forall x | x in a && x != a[0]
      ensures x in a[1..]
    {
      var i :| 0 <= i < |a| && a[i] == x;
      assert a[1..][i - 1] == x;
    }
  }

  /** The keys of a map in visiting order. */
  ghost function SortedKeys(keys: set<string>): (s: seq<string>)
    ensures SortedOf(s, keys)
  {
    SortedExists(keys);
    var s :| SortedOf(s, keys); s
  }

  method SortKeys(keys: set<string>) returns (s: seq<string>)
    ensures s == SortedKeys(keys)
  {
    s := [];
    var rest := keys;
    while rest != {}
      invariant SortedOf(s, keys - rest) && rest <= keys
      decreases |rest|
    {
      var k :| k in rest;
      InsertSorted(s, k);
      s := Insert(s, k);
      rest := rest - {k};
    }
    SortedUnique(s, SortedKeys(keys), keys);
  }

  /** The normalised map built by visiting `keys` in order: each string
      value is stored under the normalised key, a later store replacing an
      earlier one. */
  function Fold(keys: seq<string>, hash: map<string, Value>): map<string, string>
    requires forall k :: k in keys ==> k in hash
  {
    if keys == [] then map[]
    else
      var m := Fold(keys[..|keys| - 1], hash);
      var k := keys[|keys| - 1];
      if hash[k].Str? then m[Normalize(k) := hash[k].s] else m
  }

  /** The tag map after normalisation of the format's tags. */
  ghost function NormalizedMap(hash: map<string, Value>): map<string, string> {
    Fold(SortedKeys(hash.Keys), hash)
  }

  method NormalizedTags(hash: map<string, Value>) returns (tags: map<string, string>)
    ensures tags == NormalizedMap(hash)
  {
    var keys := SortKeys(hash.Keys);
    tags := map[];
    for i := 0 to |keys|
      invariant tags == Fold(keys[..i], hash)
    {
      assert keys[..i + 1][..i] == keys[..i];
      var key := keys[i];
      var tagKey := Normalize(key);
      if hash[key].Str? {
        tags := tags[tagKey := hash[key].s];
      }
    }
    assert keys[..|keys|] == keys;
  }

  /** Name n is stored iff some key normalising to n holds a string. */
  lemma {:induction false} FoldDomain(keys: seq<string>, hash: map<string, Value>, n: string)
    requires forall k :: k in keys ==> k in hash
    ensures n in Fold(keys, hash) <==> exists i :: 0 <= i < |keys| && Normalize(keys[i]) == n && hash[keys[i]].Str?
  {
    if keys != [] {
      var init := keys[..|keys| - 1];
      assert forall i :: 0 <= i < |init| ==> init[i] == keys[i];
      FoldDomain(init, hash, n);
    }
  }

  /** The name of the last key in the listing that normalises to n and
      holds a string is stored with that key's value. */
  lemma {:induction false} FoldValue(keys: seq<string>, hash: map<string, Value>, n: string, i: nat)
    requires forall k :: k in keys ==> k in hash
    requires i < |keys| && Normalize(keys[i]) == n && hash[keys[i]].Str?
    requires forall j :: i < j < |keys| ==> !(Normalize(keys[j]) == n && hash[keys[j]].Str?)
    ensures n in Fold(keys, hash) && Fold(keys, hash)[n] == hash[keys[i]].s
  {
    var init := keys[..|keys| - 1];
    if i < |init| {
      assert forall j :: i < j < |init| ==> init[j] == keys[j];
      assert init[i] == keys[i];
      FoldValue(init, hash, n, i);
    }
  }

  /** A key of the probe's map that holds a string and comes last among
      the keys with its normalised name in the (lower-cased, raw) order
      gives that name its value, whichever other keys share the name. */
  lemma NormalizedLastWins(hash: map<string, Value>, k: string)
    requires k in hash && hash[k].Str?
    requires forall k' :: k' in hash && k' != k && Normalize(k') == Normalize(k) && hash[k'].Str? ==> KeyLess(k', k)
    ensures Normalize(k) in NormalizedMap(hash)
    ensures NormalizedMap(hash)[Normalize(k)] == hash[k].s
  {
    var keys := SortedKeys(hash.Keys);
    var n := Normalize(k);
    assert k in keys;
    var i :| 0 <= i < |keys| && keys[i] == k;
    forall j | i < j < |keys|
      ensures !(Normalize(keys[j]) == n && hash[keys[j]].Str?)
    {
      if Normalize(keys[j]) == n && hash[keys[j]].Str? {
        KeyLessAsymmetric(k, keys[j]);
      }
    }
    FoldValue(keys, hash, n, i);
  }

  /** A name is present exactly when some key with that normalised name
      holds a string. */
  lemma NormalizedDomain(hash: map<string, Value>, n: string)
    ensures n in NormalizedMap(hash) <==> exists k :: k in hash && Normalize(k) == n && hash[k].Str?
  {
    var keys := SortedKeys(hash.Keys);
    FoldDomain(keys, hash, n);
    if exists k :: k in hash && Normalize(k) == n && hash[k].Str? {
      var k :| k in hash && Normalize(k) == n && hash[k].Str?;
      assert k in keys;
    }
  }

  /** "ARTIST" and "Artist" both normalise to "artist"; "ARTIST" < "Artist"
      in visiting order, so the value stored under "Artist" wins. */
  lemma CaseCollisionExample(hash: map<string, Value>)
    requires hash == map["ARTIST" := Str("A"), "Artist" := Str("B")]
    ensures "artist" in NormalizedMap(hash) && NormalizedMap(hash)["artist"] == "B"
  {
    ArtistNormalized();
    ArtistUpperNormalized();
    ArtistOrder();
    assert forall k :: k in hash ==> k == "ARTIST" || k == "Artist";
    NormalizedLastWins(hash, "Artist");
  }

  lemma ArtistNormalized()
    ensures Normalize("Artist") == "artist"
  {
  }

  lemma ArtistUpperNormalized()
    ensures Normalize("ARTIST") == "artist"
  {
  }

  lemma ArtistOrder()
    ensures KeyLess("ARTIST", "Artist")
  {
    assert Lower("ARTIST") == "artist" && Lower("Artist") == "artist";
    assert LexLess("ARTIST", "Artist") by {
      assert "ARTIST"[1..] == "RTIST" && "Artist"[1..] == "rtist";
    }
  }

  // ---------------------------------------------------------------------
  // Priority lookup

  /** The value under the first of `keys` present in the map, or "". */
  function FirstValue(tags: map<string, string>, keys: seq<string>): string {
    if keys == [] then ""
    else if keys[0] in tags then tags[keys[0]]
    else FirstValue(tags, keys[1..])
  }

  lemma {:induction false} FirstValueFirst(tags: map<string, string>, keys: seq<string>, i: nat)
    requires i < |keys| && keys[i] in tags
    requires forall j :: 0 <= j < i ==> keys[j] !in tags
    ensures FirstValue(tags, keys) == tags[keys[i]]
  {
    if i > 0 {
      assert forall j :: 0 <= j < i - 1 ==> keys[1..][j] == keys[j + 1];
      FirstValueFirst(tags, keys[1..], i - 1);
    }
  }

  lemma {:induction false} FirstValueNone(tags: map<string, string>, keys: seq<string>)
    requires forall j :: 0 <= j < |keys| ==> keys[j] !in tags
    ensures FirstValue(tags, keys) == ""
  {
    if keys != [] {
      assert forall j :: 0 <= j < |keys| - 1 ==> keys[1..][j] == keys[j + 1];
      FirstValueNone(tags, keys[1..]);
    }
  }

  method FirstVal(tags: map<string, string>, keys: seq<string>) returns (r: string)
    ensures r == FirstValue(tags, keys)
  {
    for i := 0 to |keys|
      invariant FirstValue(tags, keys[i..]) == FirstValue(tags, keys)
    {
      assert keys[i..][1..] == keys[i + 1..];
      if keys[i] in tags {
        return tags[keys[i]];
      }
    }
    return "";
  }

  /** The artist prefers "albumartist", then "artist", then "artists". */
  lemma ArtistPriority(tags: map<string, string>)
    ensures "albumartist" in tags ==> FirstValue(tags, ArtistKeys) == tags["albumartist"]
    ensures "albumartist" !in tags && "artist" in tags ==> FirstValue(tags, ArtistKeys) == tags["artist"]
    ensures "albumartist" !in tags && "artist" !in tags && "artists" in tags ==> FirstValue(tags, ArtistKeys) == tags["artists"]
    ensures "albumartist" !in tags && "artist" !in tags && "artists" !in tags ==> FirstValue(tags, ArtistKeys) == ""
  {
    if "albumartist" in tags {
      FirstValueFirst(tags, ArtistKeys, 0);
    } else if "artist" in tags {
      FirstValueFirst(tags, ArtistKeys, 1);
    } else if "artists" in tags {
      FirstValueFirst(tags, ArtistKeys, 2);
    } else {
      FirstValueNone(tags, ArtistKeys);
    }
  }

  const ArtistKeys: seq<string> := ["albumartist", "artist", "artists"]
  const CatalogKeys: seq<string> := ["catalog", "catalognumber"]
  const DateKeys: seq<string> := ["date", "originaldate", "originalreleasedate"]
  const DiscsKeys: seq<string> := ["disctotal", "totaldiscs"]
  const TracksKeys: seq<string> := ["tracktotal", "totaltracks"]

  // ---------------------------------------------------------------------
  // Names from the canonical path

  /** The name of the directory holding the file. */
  function DirName(canonical: string): string {
    var d := Paths.DirPart(canonical);
    if |d| <= 1 then "" else Paths.FileName(d[..|d| - 1])
  }

  /** The record read from the normalised map, with the four names taken
      from the file's canonical path. */
  function FromTagMap(tags: map<string, string>, canonical: string): MetaTags {
    MetaTags(
      title := FirstValue(tags, ["title"]),
      album := FirstValue(tags, ["album"]),
      artist := FirstValue(tags, ArtistKeys),
      catalogNumber := FirstValue(tags, CatalogKeys),
      author := FirstValue(tags, ["author"]),
      comment := FirstValue(tags, ["comment"]),
      composer := FirstValue(tags, ["composer"]),
      lyricist := FirstValue(tags, ["lyricist"]),
      songwriter := FirstValue(tags, ["songwriter"]),
      date := FirstValue(tags, DateKeys),
      disc := FirstValue(tags, ["disc"]),
      discs := FirstValue(tags, DiscsKeys),
      discId := FirstValue(tags, ["discid"]),
      track := FirstValue(tags, ["track"]),
      tracks := FirstValue(tags, TracksKeys),
      genre := FirstValue(tags, ["genre"]),
      musicLabel := FirstValue(tags, ["label"]),
      performer := FirstValue(tags, ["performer"]),
      publisher := FirstValue(tags, ["publisher"]),
      year := FirstValue(tags, ["year"]),
      fileName := Paths.FileName(canonical),
      dirName := DirName(canonical),
      fileBase := Paths.Stem(canonical),
      fileExt := Paths.Extension(canonical).GetOr(""))
  }

  // ---------------------------------------------------------------------
  // CUE overlay and the track split

  /** Every non-empty CUE value replaces the container's; the performer
      replaces both performer and artist. */
  function ApplyCue(t: MetaTags, cue: Cue.CueInfo): (r: MetaTags)
    ensures r == t.(album := r.album, title := r.title, songwriter := r.songwriter, genre := r.genre,
      performer := r.performer, artist := r.artist, date := r.date, discId := r.discId,
      track := r.track, tracks := r.tracks)
    ensures r.album == (if cue.album != "" then cue.album else t.album)
    ensures r.title == (if cue.title != "" then cue.title else t.title)
    ensures r.songwriter == (if cue.songwriter != "" then cue.songwriter else t.songwriter)
    ensures r.genre == (if cue.genre != "" then cue.genre else t.genre)
    ensures r.performer == (if cue.performer != "" then cue.performer else t.performer)
    ensures r.artist == (if cue.performer != "" then cue.performer else t.artist)
    ensures r.date == (if cue.date != "" then cue.date else t.date)
    ensures r.discId == (if cue.discId != "" then cue.discId else t.discId)
    ensures r.track == (if cue.track != "" then cue.track else t.track)
    ensures r.tracks == (if cue.tracks != "" then cue.tracks else t.tracks)
  {
    t.(album := NonEmptyOr(cue.album, t.album),
       title := NonEmptyOr(cue.title, t.title),
       songwriter := NonEmptyOr(cue.songwriter, t.songwriter),
       genre := NonEmptyOr(cue.genre, t.genre),
       performer := NonEmptyOr(cue.performer, t.performer),
       artist := NonEmptyOr(cue.performer, t.artist),
       date := NonEmptyOr(cue.date, t.date),
       discId := NonEmptyOr(cue.discId, t.discId),
       track := NonEmptyOr(cue.track, t.track),
       tracks := NonEmptyOr(cue.tracks, t.tracks))
  }

  function NonEmptyOr(value: string, current: string): string {
    if value != "" then value else current
  }

  /** Whether a track value has the form `^(\d+)/(\d+)$`. */
  predicate IsFraction(s: string) {
    var parts := Split(s, '/');
    |parts| == 2 && parts[0] != [] && AllDigits(parts[0]) && parts[1] != [] && AllDigits(parts[1])
  }

  /** "N/M" in track becomes track N and, if tracks is empty, tracks M. */
  function SplitTrack(t: MetaTags): (r: MetaTags)
    ensures !IsFraction(t.track) ==> r == t
    ensures forall i :: 0 <= i < FieldCount && i != 13 && i != 14 ==> Fields(r)[i] == Fields(t)[i]
    ensures t.tracks != "" ==> r.tracks == t.tracks
  {
    if IsFraction(t.track) then
      var parts := Split(t.track, '/');
      var t := if t.tracks == "" then t.(tracks := parts[1]) else t;
      t.(track := parts[0])
    else t
  }

  /** A track "N/M" splits into N and M, and M only fills an empty tracks. */
  lemma SplitTrackFraction(t: MetaTags, n: string, m: string)
    requires n != [] && AllDigits(n) && m != [] && AllDigits(m)
    requires t.track == n + "/" + m
    ensures SplitTrack(t).track == n
    ensures SplitTrack(t).tracks == (if t.tracks == "" then m else t.tracks)
  {
    assert '/' !in n && '/' !in m by {
      assert forall k :: 0 <= k < |n| ==> n[k] != '/';
      assert forall k :: 0 <= k < |m| ==> m[k] != '/';
    }
    SplitAfterPrefix(n, m, '/');
    SplitNoSep(m, '/');
  }

  /** Splitting is done once: a split track no longer has the form. */
  lemma SplitTrackOnce(t: MetaTags)
    ensures SplitTrack(SplitTrack(t)) == SplitTrack(t)
  {
    if IsFraction(t.track) {
      var n := Split(t.track, '/')[0];
      assert '/' !in n;
      SplitNoSep(n, '/');
    }
  }

  /** The record built from the probe's tag map, the canonical path and the
      CUE data. */
  ghost function TagsOf(hash: map<string, Value>, canonical: string, cue: Option<Cue.CueInfo>): MetaTags {
    var t := FromTagMap(NormalizedMap(hash), canonical);
    var t := if cue.Some? then ApplyCue(t, cue.value) else t;
    SplitTrack(t)
  }

  method FillTags(hash: map<string, Value>, canonical: string, cue: Option<Cue.CueInfo>) returns (r: MetaTags)
    ensures r == TagsOf(hash, canonical, cue)
  {
    var tags := NormalizedTags(hash);
    var title := FirstVal(tags, ["title"]);
    var album := FirstVal(tags, ["album"]);
    var artist := FirstVal(tags, ArtistKeys);
    var catalogNumber := FirstVal(tags, CatalogKeys);
    var author := FirstVal(tags, ["author"]);
    var comment := FirstVal(tags, ["comment"]);
    var composer := FirstVal(tags, ["composer"]);
    var lyricist := FirstVal(tags, ["lyricist"]);
    var songwriter := FirstVal(tags, ["songwriter"]);
    var date := FirstVal(tags, DateKeys);
    var disc := FirstVal(tags, ["disc"]);
    var discs := FirstVal(tags, DiscsKeys);
    var discId := FirstVal(tags, ["discid"]);
    var track := FirstVal(tags, ["track"]);
    var tracks := FirstVal(tags, TracksKeys);
    var genre := FirstVal(tags, ["genre"]);
    var musicLabel := FirstVal(tags, ["label"]);
    var performer := FirstVal(tags, ["performer"]);
    var publisher := FirstVal(tags, ["publisher"]);
    var year := FirstVal(tags, ["year"]);
    r := MetaTags(title, album, artist, catalogNumber, author, comment, composer, lyricist,
      songwriter, date, disc, discs, discId, track, tracks, genre, musicLabel, performer, publisher,
      year, Paths.FileName(canonical), DirName(canonical), Paths.Stem(canonical),
      Paths.Extension(canonical).GetOr(""));
    assert r == FromTagMap(tags, canonical);
    if cue.Some? {
      r := ApplyCue(r, cue.value);
    }
    r := SplitTrack(r);
  }

  // ---------------------------------------------------------------------
  // Sanitising for file names

  /** Every field passed through `filesafe` (the sanitising of one path
      component, which is a parameter of the model). */
  function SanitizeTags(t: MetaTags, filesafe: string -> string): (r: MetaTags)
    ensures forall i :: 0 <= i < FieldCount ==> Fields(r)[i] == filesafe(Fields(t)[i])
  {
    MetaTags(
      filesafe(t.title), filesafe(t.album), filesafe(t.artist), filesafe(t.catalogNumber),
      filesafe(t.author), filesafe(t.comment), filesafe(t.composer), filesafe(t.lyricist),
      filesafe(t.songwriter), filesafe(t.date), filesafe(t.disc), filesafe(t.discs),
      filesafe(t.discId), filesafe(t.track), filesafe(t.tracks), filesafe(t.genre),
      filesafe(t.musicLabel), filesafe(t.performer), filesafe(t.publisher), filesafe(t.year),
      filesafe(t.fileName), filesafe(t.dirName), filesafe(t.fileBase), filesafe(t.fileExt))
  }

  // ---------------------------------------------------------------------
  // Fallbacks

  /** The match of `^\d{4}` in a date, if any. */
  function LeadingYear(date: string): Option<string> {
    if |date| >= 4 && AllDigits(date[..4]) then Some(date[..4]) else None
  }

  /** A missing year is taken from the date's leading four digits, and a
      missing date from the year; with both missing nothing changes. */
  function FillYearDate(t: MetaTags): (r: MetaTags)
    ensures r == t.(year := r.year, date := r.date)
    ensures r.year == (if t.year == "" && LeadingYear(t.date).Some? then t.date[..4] else t.year)
    ensures r.date == (if t.date == "" then t.year else t.date)
    ensures t.year == "" && t.date == "" ==> r == t
    ensures r.year == "" && r.date != "" ==> LeadingYear(r.date).None?
  {
    if t.year == "" && t.date != "" then
      match LeadingYear(t.date)
      case Some(y) => t.(year := y)
      case None => t
    else if t.year != "" && t.date == "" then t.(date := t.year)
    else t
  }

  function FillTitleAlbum(t: MetaTags): (r: MetaTags)
    ensures r == t.(title := r.title, album := r.album)
    ensures r.title == (if t.title == "" then t.fileBase else t.title)
    ensures r.album == (if t.album == "" then t.dirName else t.album)
  {
    var t := if t.title == "" then t.(title := t.fileBase) else t;
    if t.album == "" then t.(album := t.dirName) else t
  }

  /** The artist falls back to the author, then the performer; the author
      then falls back to the artist. */
  function FillArtistAuthor(t: MetaTags): (r: MetaTags)
    ensures r == t.(artist := r.artist, author := r.author)
    ensures r.artist == (if t.artist != "" then t.artist else if t.author != "" then t.author else t.performer)
    ensures r.author == (if t.author != "" then t.author else r.artist)
    ensures (r.artist == "") == (r.author == "")
    ensures r.artist == "" <==> t.artist == "" && t.author == "" && t.performer == ""
  {
    var t :=
      if t.artist == "" then
        if t.author != "" then t.(artist := t.author)
        else if t.performer != "" then t.(artist := t.performer)
        else t
      else t;
    if t.author == "" && t.artist != "" then t.(author := t.artist) else t
  }

  /** The songwriter falls back to the composer, the lyricist, then the
      artist; composer and lyricist then fall back to the songwriter. */
  function FillWriters(t: MetaTags): (r: MetaTags)
    ensures r == t.(songwriter := r.songwriter, composer := r.composer, lyricist := r.lyricist)
    ensures r.songwriter == (if t.songwriter != "" then t.songwriter else if t.composer != "" then t.composer
                             else if t.lyricist != "" then t.lyricist else t.artist)
    ensures r.composer == (if t.composer != "" then t.composer else r.songwriter)
    ensures r.lyricist == (if t.lyricist != "" then t.lyricist else r.songwriter)
    ensures r.songwriter != "" <==> r.composer != ""
    ensures r.songwriter != "" <==> r.lyricist != ""
    ensures r.songwriter != "" <==> t.songwriter != "" || t.composer != "" || t.lyricist != "" || t.artist != ""
  {
    var t :=
      if t.songwriter == "" then
        if t.composer != "" then t.(songwriter := t.composer)
        else if t.lyricist != "" then t.(songwriter := t.lyricist)
        else if t.artist != "" then t.(songwriter := t.artist)
        else t
      else t;
    var t := if t.composer == "" && t.songwriter != "" then t.(composer := t.songwriter) else t;
    if t.lyricist == "" && t.songwriter != "" then t.(lyricist := t.songwriter) else t
  }

  /** Empty fields filled from related ones, for naming the output file.
      Catalog number, comment, disc, discs, disc id, track, tracks, genre,
      label, performer, publisher and the four file names are never
      touched, and a non-empty field is never changed. */
  function FillFallback(t: MetaTags): (r: MetaTags)
    ensures r == t.(year := r.year, date := r.date, title := r.title, album := r.album,
      artist := r.artist, author := r.author, songwriter := r.songwriter,
      composer := r.composer, lyricist := r.lyricist)
    // year and date; with both missing they stay missing
    ensures r.year == (if t.year == "" && LeadingYear(t.date).Some? then t.date[..4] else t.year)
    ensures r.date == (if t.date == "" then t.year else t.date)
    // title and album
    ensures r.title == (if t.title == "" then t.fileBase else t.title)
    ensures r.album == (if t.album == "" then t.dirName else t.album)
    // artist and author: author before performer, then author from artist
    ensures r.artist == (if t.artist != "" then t.artist else if t.author != "" then t.author else t.performer)
    ensures r.author == (if t.author != "" then t.author else r.artist)
    ensures (r.artist == "") == (r.author == "")
    // songwriter, composer and lyricist, after the artist has been filled
    ensures r.songwriter == (if t.songwriter != "" then t.songwriter else if t.composer != "" then t.composer
                             else if t.lyricist != "" then t.lyricist else r.artist)
    ensures r.composer == (if t.composer != "" then t.composer else r.songwriter)
    ensures r.lyricist == (if t.lyricist != "" then t.lyricist else r.songwriter)
    ensures r.songwriter != "" <==> r.composer != ""
    ensures r.songwriter != "" <==> r.lyricist != ""
    ensures r.songwriter != "" <==>
      t.songwriter != "" || t.composer != "" || t.lyricist != "" || r.artist != ""
  {
    FillWriters(FillArtistAuthor(FillTitleAlbum(FillYearDate(t))))
  }

  /** Filling the fallbacks a second time changes nothing. */
  lemma FillFallbackIdempotent(t: MetaTags)
    ensures FillFallback(FillFallback(t)) == FillFallback(t)
  {
    var y := FillYearDate(t);
    var ta := FillTitleAlbum(y);
    var aa := FillArtistAuthor(ta);
    var r := FillWriters(aa);
    assert FillYearDate(r) == r;
    assert FillTitleAlbum(r) == r;
    assert FillArtistAuthor(r) == r;
    assert FillWriters(r) == r;
  }

  // ---------------------------------------------------------------------
  // The stream scan

  /** A stream that carries an embedded cover with known dimensions. */
  predicate IsCover(s: Stream) {
    s.codecType == VideoCodec && s.tags.Some? && s.tags.value.comment == Some(CoverComment)
    && s.width.Some? && s.height.Some?
  }

  /** The dimensions of the last cover stream, as (width, height). */
  function LastCover(streams: seq<Stream>): (r: Option<(nat, nat)>)
    ensures r.None? <==> forall i :: 0 <= i < |streams| ==> !IsCover(streams[i])
    ensures r.Some? ==>
      exists i :: (0 <= i < |streams| && IsCover(streams[i])
        && r.value == (streams[i].width.value, streams[i].height.value)
        && forall j :: i < j < |streams| ==> !IsCover(streams[j]))
  {
    if streams == [] then None
    else
      var last := streams[|streams| - 1];
      var init := streams[..|streams| - 1];
      assert forall i :: 0 <= i < |init| ==> init[i] == streams[i];
      if IsCover(last) then Some((last.width.value, last.height.value))
      else LastCover(init)
  }

  lemma LastCoverStep(streams: seq<Stream>, i: nat)
    requires i < |streams|
    ensures LastCover(streams[..i + 1]) ==
      if IsCover(streams[i]) then Some((streams[i].width.value, streams[i].height.value))
      else LastCover(streams[..i])
  {
    assert streams[..i + 1][..i] == streams[..i];
  }

  /** The picture fields of a file's metadata after scanning its streams. */
  method ScanStreams(streams: seq<Stream>, tags: MetaTags) returns (m: FileMeta)
    ensures m.tags == tags
    ensures m.hasPic <==> LastCover(streams).Some?
    ensures m.hasPic ==> (m.picWidth, m.picHeight) == LastCover(streams).value
    ensures !m.hasPic ==> m.picWidth == 0 && m.picHeight == 0
  {
    m := FileMeta(false, 0, 0, tags);
    for i := 0 to |streams|
      invariant m.tags == tags
      invariant !m.hasPic ==> m.picWidth == 0 && m.picHeight == 0
      invariant LastCover(streams[..i]) == if m.hasPic then Some((m.picWidth, m.picHeight)) else None
    {
      LastCoverStep(streams, i);
      var s := streams[i];
      if s.codecType == VideoCodec && s.tags.Some? && s.tags.value.comment.Some?
        && s.tags.value.comment.value == CoverComment && s.width.Some? && s.height.Some? {
        m := m.(hasPic := true, picHeight := s.height.value, picWidth := s.width.value);
      }
    }
    assert streams[..|streams|] == streams;
  }

  /** The metadata of a file from the probe's report (`probe` is the
      outcome of running ffprobe and decoding its JSON output) and the
      file's canonical path. */
  method ExtractMeta(probe: Result<Probe>, canonical: string, cue: Option<Cue.CueInfo>) returns (r: Result<FileMeta>)
    ensures probe.Err? ==> r == Err(probe.error)
    ensures probe.Ok? ==> r.Ok? && r.value.tags == TagsOf(probe.value.formatTags.GetOr(map[]), canonical, cue)
    ensures probe.Ok? ==> (r.value.hasPic <==> LastCover(probe.value.streams).Some?)
    ensures probe.Ok? && r.value.hasPic ==> (r.value.picWidth, r.value.picHeight) == LastCover(probe.value.streams).value
  {
    if probe.Err? {
      return Err(probe.error);
    }
    var formatTags := probe.value.formatTags.GetOr(map[]);
    var tags := FillTags(formatTags, canonical, cue);
    var m := ScanStreams(probe.value.streams, tags);
    return Ok(m);
  }
}
