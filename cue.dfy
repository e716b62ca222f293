/** Per-track information taken from a CUE sheet next to an audio file:
    where each track starts and how long it runs (a CUE frame is 1/75 s),
    its number and the album's track count, the text fields with their
    disc-level fallbacks, and values kept in the sheet's REM comments.

    The sheet arrives already parsed; reading and parsing the file is the
    `read` parameter of the lookups. */
module Cue {
  import opened Wrappers
  import opened Text
  import Paths

  const FramesPerSecond: nat := 75

  /** Track and index numbers are bytes. */
  type U8 = x: nat | x < 256

  /** An INDEX line: its number and its position in frames. */
  datatype CueIndex = CueIndex(id: U8, frames: nat)

  /** A TRACK with its INDEX lines and its TITLE, PERFORMER and SONGWRITER
      values (each possibly absent, so a list). */
  datatype Track = Track(
    id: U8,
    index: seq<CueIndex>,
    title: seq<string>,
    performer: seq<string>,
    songwriter: seq<string>)

  /** A FILE block and its tracks, in sheet order. */
  datatype FileBlock = FileBlock(tracks: seq<Track>)

  /** A whole sheet: the disc-level fields, the REM comments (text after
      "REM "), and the FILE blocks. */
  datatype Sheet = Sheet(
    title: seq<string>,
    performer: seq<string>,
    songwriter: seq<string>,
    comments: seq<string>,
    files: seq<FileBlock>)

  /** What reading a candidate sheet path gives. */
  datatype SheetSource = Missing | Unreadable(error: string) | Parsed(sheet: Sheet)

  datatype CueInfo = CueInfo(
    start: real,
    duration: Option<real>,
    album: string,
    title: string,
    performer: string,
    songwriter: string,
    genre: string,
    date: string,
    discId: string,
    track: string,
    tracks: string)

  // ---------------------------------------------------------------------
  // Track numbers

  /** The largest track number in a block, or 0 for an empty block. */
  function MaxId(tracks: seq<Track>): (r: U8)
    ensures forall i :: 0 <= i < |tracks| ==> tracks[i].id <= r
    ensures r == 0 || exists i :: 0 <= i < |tracks| && tracks[i].id == r
  {
    if tracks == [] then 0
    else
      var m := MaxId(tracks[..|tracks| - 1]);
      var last := tracks[|tracks| - 1].id;
      if last > m then last else m
  }

  method MaxTrackIndex(tracks: seq<Track>) returns (maxId: U8)
    ensures maxId == MaxId(tracks)
  {
    maxId := 0;
    for i := 0 to |tracks|
      invariant maxId == MaxId(tracks[..i])
    {
      assert tracks[..i + 1][..i] == tracks[..i];
      if tracks[i].id > maxId {
        maxId := tracks[i].id;
      }
    }
    assert tracks[..|tracks|] == tracks;
  }

  /** The first track of the block with the given number. */
  function FindTrack(tracks: seq<Track>, id: U8): (r: Option<Track>)
    ensures r.Some? ==> r.value in tracks && r.value.id == id
    ensures r.None? <==> forall i :: 0 <= i < |tracks| ==> tracks[i].id != id
  {
    if tracks == [] then None
    else if tracks[0].id == id then Some(tracks[0])
    else
      var r := FindTrack(tracks[1..], id);
      assert forall i :: 1 <= i < |tracks| ==> tracks[i] == tracks[1..][i - 1];
      r
  }

  method TrackByIndex(tracks: seq<Track>, id: U8) returns (r: Option<Track>)
    ensures r == FindTrack(tracks, id)
  {
    for i := 0 to |tracks|
      invariant FindTrack(tracks[i..], id) == FindTrack(tracks, id)
    {
      assert tracks[i..][1..] == tracks[i + 1..];
      if tracks[i].id == id {
        return Some(tracks[i]);
      }
    }
    return None;
  }

  /** The number of the track after `id`: byte arithmetic, so the track
      after 255 is looked up as 0. */
  function NextId(id: U8): U8 {
    (id + 1) % 256
  }

  // ---------------------------------------------------------------------
  // Start positions

  /** The frame position of the track's first INDEX numbered 1. */
  function StartFrames(indexes: seq<CueIndex>): (r: Option<nat>)
    ensures r.Some? <==> exists i :: 0 <= i < |indexes| && indexes[i].id == 1
    ensures r.Some? ==> exists i :: 0 <= i < |indexes| && indexes[i].id == 1 && indexes[i].frames == r.value
  {
    if indexes == [] then None
    else if indexes[0].id == 1 then Some(indexes[0].frames)
    else
      var r := StartFrames(indexes[1..]);
      assert forall i :: 1 <= i < |indexes| ==> indexes[i] == indexes[1..][i - 1];
      r
  }

  method TrackStart(track: Track) returns (r: Option<nat>)
    ensures r == StartFrames(track.index)
  {
    var indexes := track.index;
    for i := 0 to |indexes|
      invariant StartFrames(indexes[i..]) == StartFrames(indexes)
    {
      assert indexes[i..][1..] == indexes[i + 1..];
      if indexes[i].id == 1 {
        return Some(indexes[i].frames);
      }
    }
    return None;
  }

  /** When a track lists INDEX 01 more than once, the first one sets the
      start. */
  lemma {:induction false} StartFramesFirst(indexes: seq<CueIndex>, j: nat)
    requires j < |indexes| && indexes[j].id == 1
    requires forall k :: 0 <= k < j ==> indexes[k].id != 1
    ensures StartFrames(indexes) == Some(indexes[j].frames)
  {
    if j > 0 {
      assert forall k :: 0 <= k < j - 1 ==> indexes[1..][k] == indexes[k + 1];
      StartFramesFirst(indexes[1..], j - 1);
    }
  }

  /** A frame count in seconds. */
  function Seconds(frames: nat): real {
    frames as real / FramesPerSecond as real
  }

  lemma SecondsExamples()
    ensures Seconds(75) == 1.0 && Seconds(150) == 2.0 && Seconds(0) == 0.0
  {
  }

  // ---------------------------------------------------------------------
  // Text fields

  /** The first value of a field, or the fallback when it has none. */
  function OptStr(values: seq<string>, fallback: string): string {
    if |values| > 0 then values[0] else fallback
  }

  /** What group 1 of the case-insensitive pattern
      `^TAG\s+(.+)"?$` captures in a comment. The whitespace run is greedy,
      so the group is the rest of the comment after it; when nothing
      follows the run, the run gives back its last character, provided it
      keeps one for itself. `.` does not match a line feed, so neither may
      the group. */
  function Capture(comment: string, tag: string): (r: Option<string>)
    ensures r.Some? ==> |r.value| >= 1 && '\n' !in r.value
    ensures r.Some? ==> |tag| < |comment| && Lower(comment[..|tag|]) == Lower(tag)
  {
    if |comment| < |tag| || Lower(comment[..|tag|]) != Lower(tag) then None
    else
      var after := comment[|tag|..];
      var rest := TrimStart(after);
      var w := |after| - |rest|;
      if w == 0 then None
      else if rest != [] then (if '\n' in rest then None else Some(rest))
      else if w >= 2 && after[w - 1] != '\n' then Some([after[w - 1]])
      else None
  }

  /** Group 1 is the text after the tag (in any ASCII letter case) and the
      whitespace that follows it, whenever that text does not start with
      whitespace and has no line feed. */
  lemma CaptureMatches(head: string, tag: string, ws: string, v: string)
    requires |head| == |tag| && Lower(head) == Lower(tag)
    requires |ws| >= 1 && forall k :: 0 <= k < |ws| ==> IsWhitespace(ws[k])
    requires |v| >= 1 && !IsWhitespace(v[0]) && '\n' !in v
    ensures Capture(head + ws + v, tag) == Some(v)
  {
    var c := head + ws + v;
    assert c[..|tag|] == head;
    var after := c[|tag|..];
    assert after == ws + v;
    TrimStartPrefix(ws, v);
  }

  lemma {:induction false} TrimStartPrefix(ws: string, v: string)
    requires forall k :: 0 <= k < |ws| ==> IsWhitespace(ws[k])
    requires |v| >= 1 && !IsWhitespace(v[0])
    ensures TrimStart(ws + v) == v
    decreases |ws|
  {
    if ws == [] {
      assert ws + v == v;
    } else {
      assert (ws + v)[1..] == ws[1..] + v;
      TrimStartPrefix(ws[1..], v);
    }
  }

  /** A tag that is followed directly by a letter does not match: "DATEX"
      is not "DATE". */
  lemma CaptureNeedsWhitespace(tag: string, v: string)
    requires |v| >= 1 && !IsWhitespace(v[0])
    ensures Capture(tag + v, tag) == None
  {
    var c := tag + v;
    assert c[..|tag|] == tag;
    assert c[|tag|..] == v;
  }

  /** Surrounding double quotes are dropped when both are there and the
      value is longer than one character. */
  function Unquote(s: string): (r: string)
    ensures |s| >= 2 && s[0] == '"' && s[|s| - 1] == '"' ==> "\"" + r + "\"" == s
    ensures !(|s| >= 2 && s[0] == '"' && s[|s| - 1] == '"') ==> r == s
  {
    if |s| > 1 && s[0] == '"' && s[|s| - 1] == '"' then s[1..|s| - 1] else s
  }

  lemma UnquoteQuoted(v: string)
    ensures Unquote("\"" + v + "\"") == v
    ensures Unquote("\"") == "\""
  {
  }

  /** The value of the first comment that matches the tag, or "". */
  function CommentFor(comments: seq<string>, tag: string): string {
    if comments == [] then ""
    else match Capture(comments[0], tag)
      case Some(v) => Unquote(v)
      case None => CommentFor(comments[1..], tag)
  }

  /** `CommentFor` picks the first matching comment and ignores the rest;
      with no match it is empty. */
  lemma {:induction false} CommentForFirst(comments: seq<string>, tag: string, i: nat)
    requires i < |comments| && Capture(comments[i], tag).Some?
    requires forall j :: 0 <= j < i ==> Capture(comments[j], tag).None?
    ensures CommentFor(comments, tag) == Unquote(Capture(comments[i], tag).value)
  {
    if i > 0 {
      assert forall j :: 0 <= j < i - 1 ==> comments[1..][j] == comments[j + 1];
      CommentForFirst(comments[1..], tag, i - 1);
    }
  }

  lemma {:induction false} CommentForNone(comments: seq<string>, tag: string)
    requires forall j :: 0 <= j < |comments| ==> Capture(comments[j], tag).None?
    ensures CommentFor(comments, tag) == ""
  {
    if comments != [] {
      assert forall j :: 0 <= j < |comments| - 1 ==> comments[1..][j] == comments[j + 1];
      CommentForNone(comments[1..], tag);
    }
  }

  method ExtractComment(sheet: Sheet, tag: string) returns (r: string)
    ensures r == CommentFor(sheet.comments, tag)
  {
    var comments := sheet.comments;
    for i := 0 to |comments|
      invariant CommentFor(comments[i..], tag) == CommentFor(comments, tag)
    {
      assert comments[i..][1..] == comments[i + 1..];
      var m := Capture(comments[i], tag);
      if m.Some? {
        var s := m.value;
        if |s| > 1 && s[0] == '"' && s[|s| - 1] == '"' {
          return s[1..|s| - 1];
        }
        return s;
      }
    }
    return "";
  }

  // ---------------------------------------------------------------------
  // One track

  /** The time from `start` to the start of the next track, when that
      track exists, has an INDEX 01 and starts strictly later. */
  function Duration(start: nat, next: Option<Track>): Option<real> {
    if next.Some? && StartFrames(next.value.index).Some? && StartFrames(next.value.index).value > start
    then Some(Seconds(StartFrames(next.value.index).value - start))
    else None
  }

  /** The information for one track, given the track after it (by number)
      and the largest track number of its block. */
  function TrackInfo(track: Track, next: Option<Track>, maxId: U8, sheet: Sheet): (r: Option<CueInfo>)
    ensures r.Some? <==> StartFrames(track.index).Some?
    ensures r.Some? ==> r.value.start == Seconds(StartFrames(track.index).value)
    ensures r.Some? ==>
      (r.value.duration.Some? <==>
        next.Some? && StartFrames(next.value.index).Some?
        && StartFrames(next.value.index).value > StartFrames(track.index).value)
    ensures r.Some? && r.value.duration.Some? ==>
      r.value.start + r.value.duration.value == Seconds(StartFrames(next.value.index).value)
    ensures r.Some? ==> r.value.track == Decimal(track.id) && r.value.tracks == Decimal(maxId)
  {
    match StartFrames(track.index)
    case None => None
    case Some(start) =>
      var duration := Duration(start, next);
      Some(CueInfo(
        start := Seconds(start),
        duration := duration,
        album := OptStr(sheet.title, ""),
        title := OptStr(track.title, ""),
        performer := OptStr(track.performer, OptStr(sheet.performer, "")),
        songwriter := OptStr(track.songwriter, OptStr(sheet.songwriter, "")),
        genre := CommentFor(sheet.comments, "GENRE"),
        date := CommentFor(sheet.comments, "DATE"),
        discId := CommentFor(sheet.comments, "DISCID"),
        track := Decimal(track.id),
        tracks := Decimal(maxId)))
  }

  /** Album is always the disc title and title only the track's own;
      performer and songwriter fall back to the disc-level values. */
  lemma TrackInfoFallbacks(track: Track, next: Option<Track>, maxId: U8, sheet: Sheet)
    requires StartFrames(track.index).Some?
    ensures var info := TrackInfo(track, next, maxId, sheet).value;
      && info.album == (if sheet.title == [] then "" else sheet.title[0])
      && info.title == (if track.title == [] then "" else track.title[0])
      && (track.performer == [] && sheet.performer != [] ==> info.performer == sheet.performer[0])
      && (track.performer != [] ==> info.performer == track.performer[0])
      && (track.songwriter == [] && sheet.songwriter != [] ==> info.songwriter == sheet.songwriter[0])
      && (track.songwriter != [] ==> info.songwriter == track.songwriter[0])
      && (track.title == [] && sheet.title != [] ==> info.title == "")
  {
  }

  method CueTrackInfo(track: Track, next: Option<Track>, maxId: U8, sheet: Sheet) returns (r: Option<CueInfo>)
    ensures r == TrackInfo(track, next, maxId, sheet)
  {
    var start := TrackStart(track);
    if start.None? {
      return None;
    }
    var duration: Option<real> := None;
    if next.Some? {
      var nextStart := TrackStart(next.value);
      if nextStart.Some? && nextStart.value > start.value {
        duration := Some(Seconds(nextStart.value - start.value));
      }
    }
    assert duration == Duration(start.value, next);
    var genre := ExtractComment(sheet, "GENRE");
    var date := ExtractComment(sheet, "DATE");
    var discId := ExtractComment(sheet, "DISCID");
    r := Some(CueInfo(
      start := Seconds(start.value),
      duration := duration,
      album := OptStr(sheet.title, ""),
      title := OptStr(track.title, ""),
      performer := OptStr(track.performer, OptStr(sheet.performer, "")),
      songwriter := OptStr(track.songwriter, OptStr(sheet.songwriter, "")),
      genre := genre,
      date := date,
      discId := discId,
      track := Decimal(track.id),
      tracks := Decimal(maxId)));
  }

  // ---------------------------------------------------------------------
  // One sheet

  /** The information of the first k tracks of a block, in block order,
      skipping tracks that have no INDEX 01. */
  function InfosUpTo(tracks: seq<Track>, sheet: Sheet, k: nat): seq<CueInfo>
    requires k <= |tracks|
  {
    if k == 0 then []
    else
      var before := InfosUpTo(tracks, sheet, k - 1);
      match InfoAt(tracks, sheet, k - 1)
      case Some(info) => before + [info]
      case None => before
  }

  /** The information of the i-th track of a block. */
  function InfoAt(tracks: seq<Track>, sheet: Sheet, i: nat): Option<CueInfo>
    requires i < |tracks|
  {
    TrackInfo(tracks[i], FindTrack(tracks, NextId(tracks[i].id)), MaxId(tracks), sheet)
  }

  /** The number of tracks among the first k that have an INDEX 01. */
  function StartedCount(tracks: seq<Track>, k: nat): nat
    requires k <= |tracks|
  {
    if k == 0 then 0
    else StartedCount(tracks, k - 1) + (if StartFrames(tracks[k - 1].index).Some? then 1 else 0)
  }

  /** One info per track that has an INDEX 01. */
  lemma {:induction false} InfosUpToCount(tracks: seq<Track>, sheet: Sheet, k: nat)
    requires k <= |tracks|
    ensures |InfosUpTo(tracks, sheet, k)| == StartedCount(tracks, k)
  {
    if k > 0 {
      InfosUpToCount(tracks, sheet, k - 1);
      assert InfoAt(tracks, sheet, k - 1).Some? <==> StartFrames(tracks[k - 1].index).Some?;
    }
  }

  /** The sheet's information: only the first FILE block counts, and a
      missing or unreadable sheet, or one without blocks, gives nothing. */
  function InfoInFile(src: SheetSource): (r: Option<seq<CueInfo>>)
    ensures r.Some? <==> src.Parsed? && |src.sheet.files| > 0
    ensures r.Some? ==> |r.value| == StartedCount(src.sheet.files[0].tracks, |src.sheet.files[0].tracks|)
  {
    match src
    case Parsed(sheet) =>
      if |sheet.files| == 0 then None
      else
        var tracks := sheet.files[0].tracks;
        InfosUpToCount(tracks, sheet, |tracks|);
        Some(InfosUpTo(tracks, sheet, |tracks|))
    case _ => None
  }

  method FindCueInfoInFile(filename: string, read: string -> SheetSource) returns (r: Option<seq<CueInfo>>)
    ensures r == InfoInFile(read(filename))
  {
    var src := read(filename);
    if src.Parsed? && |src.sheet.files| > 0 {
      var sheet := src.sheet;
      var tracks := sheet.files[0].tracks;
      var maxId := MaxTrackIndex(tracks);
      var infos := [];
      for i := 0 to |tracks|
        invariant infos == InfosUpTo(tracks, sheet, i)
      {
        var next := TrackByIndex(tracks, NextId(tracks[i].id));
        var info := CueTrackInfo(tracks[i], next, maxId, sheet);
        assert info == InfoAt(tracks, sheet, i);
        if info.Some? {
          infos := infos + [info.value];
        }
      }
      return Some(infos);
    }
    return None;
  }

  /** The two sheet paths tried for an audio file, in order: the extension
      replaced by "cue", then ".cue" appended to the whole name. */
  function Candidates(path: string): seq<string> {
    [Paths.WithExtension(path, "cue"), path + ".cue"]
  }

  /** The information of the first candidate sheet that yields any. */
  function CueInfoFor(path: string, read: string -> SheetSource): (r: Option<seq<CueInfo>>)
    ensures r.None? <==> InfoInFile(read(Candidates(path)[0])).None? && InfoInFile(read(Candidates(path)[1])).None?
    ensures InfoInFile(read(Candidates(path)[0])).Some? ==> r == InfoInFile(read(Candidates(path)[0]))
    ensures r.Some? && InfoInFile(read(Candidates(path)[0])).None? ==> r == InfoInFile(read(Candidates(path)[1]))
  {
    var first := InfoInFile(read(Paths.WithExtension(path, "cue")));
    if first.Some? then first else InfoInFile(read(path + ".cue"))
  }

  method FindCueInfo(path: string, read: string -> SheetSource) returns (r: Option<seq<CueInfo>>)
    ensures r == CueInfoFor(path, read)
  {
    r := FindCueInfoInFile(Paths.WithExtension(path, "cue"), read);
    if r.Some? {
      return;
    }
    r := FindCueInfoInFile(path + ".cue", read);
  }

  // ---------------------------------------------------------------------
  // Properties of a block

  /** Consecutive numbered tracks with increasing starts are contiguous:
      a track ends where the next one starts. */
  lemma Contiguous(tracks: seq<Track>, sheet: Sheet, i: nat, j: nat)
    requires i < |tracks| && j < |tracks|
    requires tracks[j].id == NextId(tracks[i].id)
    requires forall k :: 0 <= k < j ==> tracks[k].id != tracks[j].id
    requires StartFrames(tracks[i].index).Some? && StartFrames(tracks[j].index).Some?
    requires StartFrames(tracks[j].index).value > StartFrames(tracks[i].index).value
    ensures var info := InfoAt(tracks, sheet, i).value;
      info.duration.Some? && info.start + info.duration.value == Seconds(StartFrames(tracks[j].index).value)
  {
    FindTrackFirst(tracks, tracks[j].id, j);
  }

  lemma {:induction false} FindTrackFirst(tracks: seq<Track>, id: U8, j: nat)
    requires j < |tracks| && tracks[j].id == id
    requires forall k :: 0 <= k < j ==> tracks[k].id != id
    ensures FindTrack(tracks, id) == Some(tracks[j])
  {
    if j > 0 {
      assert forall k :: 0 <= k < j - 1 ==> tracks[1..][k] == tracks[k + 1];
      FindTrackFirst(tracks[1..], id, j - 1);
    }
  }

  function T(id: U8, frames: nat): Track {
    Track(id, [CueIndex(0, 0), CueIndex(1, frames)], ["t" + Decimal(id)], [], [])
  }

  /** A block listing track 2 before track 1, and a track 5 with no track
      3 or 4: the infos follow block order, track 1 runs until track 2
      (found by number, not position), track 2 has no successor, and the
      track count is the largest number (5), not the number of tracks. */
  lemma BlockExample(tracks: seq<Track>, sheet: Sheet)
    requires tracks == [T(2, 150), T(1, 75), T(5, 300)]
    ensures var infos := InfosUpTo(tracks, sheet, 3);
      && |infos| == 3
      && infos[0].track == "2" && infos[0].start == 2.0 && infos[0].duration == None
      && infos[1].track == "1" && infos[1].start == 1.0 && infos[1].duration == Some(1.0)
      && infos[2].track == "5" && infos[2].start == 4.0 && infos[2].duration == None
      && infos[0].tracks == "5" && infos[1].tracks == "5" && infos[2].tracks == "5"
  {
    ExampleInfo0(tracks, sheet);
    ExampleInfo1(tracks, sheet);
    ExampleInfo2(tracks, sheet);
    var i0 := InfoAt(tracks, sheet, 0);
    var i1 := InfoAt(tracks, sheet, 1);
    var i2 := InfoAt(tracks, sheet, 2);
    assert InfosUpTo(tracks, sheet, 1) == [i0.value];
    assert InfosUpTo(tracks, sheet, 2) == [i0.value, i1.value];
    assert InfosUpTo(tracks, sheet, 3) == [i0.value, i1.value, i2.value];
  }

  lemma ExampleMax(tracks: seq<Track>)
    requires tracks == [T(2, 150), T(1, 75), T(5, 300)]
    ensures MaxId(tracks) == 5
  {
    assert tracks[..1] == [T(2, 150)];
    assert tracks[..2][..1] == tracks[..1];
    assert tracks[..3][..2] == tracks[..2];
    assert tracks[..3] == tracks;
  }

  /** The information of a track with a start: its start, its number and
      the block's track count, and no duration without a successor. */
  lemma InfoAtStarted(tracks: seq<Track>, sheet: Sheet, i: nat, frames: nat)
    requires i < |tracks| && StartFrames(tracks[i].index) == Some(frames)
    ensures var info := InfoAt(tracks, sheet, i);
      && info.Some? && info.value.start == Seconds(frames)
      && info.value.track == Decimal(tracks[i].id) && info.value.tracks == Decimal(MaxId(tracks))
      && (FindTrack(tracks, NextId(tracks[i].id)).None? ==> info.value.duration.None?)
  {
  }

  lemma ExampleInfo0(tracks: seq<Track>, sheet: Sheet)
    requires tracks == [T(2, 150), T(1, 75), T(5, 300)]
    ensures var i := InfoAt(tracks, sheet, 0);
      i.Some? && i.value.track == "2" && i.value.tracks == "5" && i.value.start == 2.0 && i.value.duration == None
  {
    ExampleMax(tracks);
    var t := tracks[0];
    assert t.id == 2 && NextId(2) == 3;
    assert StartFrames(t.index) == Some(150);
    assert FindTrack(tracks, 3) == None;
    assert Decimal(2) == "2" && Decimal(5) == "5";
    assert Seconds(150) == 2.0;
    InfoAtStarted(tracks, sheet, 0, 150);
  }

  lemma ExampleInfo1(tracks: seq<Track>, sheet: Sheet)
    requires tracks == [T(2, 150), T(1, 75), T(5, 300)]
    ensures var i := InfoAt(tracks, sheet, 1);
      i.Some? && i.value.track == "1" && i.value.tracks == "5" && i.value.start == 1.0 && i.value.duration == Some(1.0)
  {
    ExampleMax(tracks);
    var t := tracks[1];
    assert t.id == 1 && NextId(1) == 2;
    assert StartFrames(t.index) == Some(75);
    assert StartFrames(tracks[0].index) == Some(150);
    FindTrackFirst(tracks, 2, 0);
    assert Decimal(1) == "1" && Decimal(5) == "5";
    assert Seconds(75) == 1.0 && Seconds(150) == 2.0;
    InfoAtStarted(tracks, sheet, 1, 75);
  }

  lemma ExampleInfo2(tracks: seq<Track>, sheet: Sheet)
    requires tracks == [T(2, 150), T(1, 75), T(5, 300)]
    ensures var i := InfoAt(tracks, sheet, 2);
      i.Some? && i.value.track == "5" && i.value.tracks == "5" && i.value.start == 4.0 && i.value.duration == None
  {
    ExampleMax(tracks);
    var t := tracks[2];
    assert t.id == 5 && NextId(5) == 6;
    assert StartFrames(t.index) == Some(300);
    assert FindTrack(tracks, 6) == None;
    assert Decimal(5) == "5";
    assert Seconds(300) == 4.0;
    InfoAtStarted(tracks, sheet, 2, 300);
  }
}
