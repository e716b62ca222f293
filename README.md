# musbconv, modelled in Dafny

musbconv converts a tree of audio files (FLAC, WavPack, M4A, ...) into MP3 or
Ogg files with ffmpeg, one ffmpeg run per track. It:

- reads each file's tags with ffprobe;
- splits whole-disc images into tracks with their CUE sheets;
- names each output file by rendering a Handlebars template over the tags;
- attaches album art, either the picture embedded in the input or a cover
  file found beside it, converted once per cover file.

This project models the decision logic of that pipeline and proves what each
step promises. One Dafny module per source file:

- **Meta** (`meta.dfy`, for `src/meta.rs`):
  - the 24-field tag record;
  - the normalised tag map, where among keys that collide the last in sort
    order wins;
  - priority lookups, the CUE overlay and the `N/M` track split;
  - the fallback chain and its idempotence;
  - the cover-stream scan.
- **Cue** (`cue.dfy`, for `src/cue.rs`):
  - per-track information extracted from a parsed CUE sheet: start and
    duration from frame counts, track and disc numbers, text fallbacks and
    quoted comments;
  - the two sheet file names tried for an audio file.
- **Convert** (`convert.dfy`, for `src/convert.rs`):
  - lexical confinement of the rendered output name;
  - track-number padding;
  - the `-metadata` arguments and the ordered ffmpeg argument list;
  - the outcome of converting one item: its errors, the dry run, and the
    picture choice.
- **Files** (`files.dfy`, for `src/files.rs`): discovery of the input items
  (extension filter, CUE expansion, recursion), the sort by base name and the
  index/total numbering.
- **Entry** (`entry.dfy`, for `src/entry.rs`): per-item outcomes and the
  summary loop, which keeps the last of several items that resolve to one
  output path and reports the others.
- **ConcurrentMap** (`concurrent_map.dfy`, for `src/concurrent_map.rs`): the
  memo table shared by all conversions, as a class over a `map` with a ghost
  record of the computations it ran.
- **Pics** (`pics.dfy`, for `src/pics.rs`): the picture-conversion arguments,
  the cached cover conversion and the cover-file search.
- **Formats** (`formats.dfy`, for `src/formats.rs`) and **Args** (`args.dfy`,
  for `src/args.rs`):
  - the fixed argument lists of the two formats;
  - the numeric option validators;
  - comma-separated list options;
  - the mapping of matched option strings onto the settings.

Supporting modules:

- `wrappers.dfy`: Option and Result.
- `text.dfy`: ASCII lower-casing, whitespace trimming, split and join,
  decimal printing, and Rust's integer parse.
- `paths.dfy`: the parts of `std::path` the program uses.
- `fs.dfy`: directory listings as values.
- `externals.dfy`: the `World` record. Every effect of the program is a
  function field of it: files, CUE sheets, listings, the ffmpeg and ffprobe
  runs, template rendering, number formatting, and so on.

Loops of the source are methods, each proved equal to a specification
function. The properties are proved about those functions.

## Model

| member | source | states |
|---|---|---|
| Formats.AudioArgs | src/formats.rs:13-24 | both formats start with `-b:a 320k`; Ogg has nothing else |
| Formats.Mp3ArgsMatchHelp | src/formats.rs:15-19 | the MP3 list, joined with spaces, is exactly the default the help text documents |
| Formats.OggArgsMatchHelp | src/formats.rs:20-22 | the Ogg list, joined with spaces, is exactly `-b:a 320k` as documented |
| Formats.PicQualityArgs | src/formats.rs:43-50 | MP3 gets `-qmin 1 -q:v q` and Ogg only `-q:v q`, q being the normalised quality |
| Text.ParseInt | src/args.rs:344-353 | all digits, or a `+` (or, for a signed type, a `-`) followed by digits, parse to the decimal value exactly when it lies in the type's range; every other text, including an empty one or a lone sign, is refused |
| Text.ParseIntToString | src/args.rs:33 | printing an integer of the type and parsing it back gives the same integer |
| Text.LowerIsLower | src/args.rs:47 | the result holds no upper-case letter, and lower-case text is unchanged |
| Text.Trim | src/args.rs:47 | the result is no longer, neither end is white space, and text without white space at its ends is unchanged |
| Text.TrimSlice | src/args.rs:47 | the trimmed text is a contiguous slice of the input, and everything cut off before and after it is white space |
| Text.Split | src/args.rs:47 | there is at least one part, and no part holds the separator |
| Args.ValidateNum | src/args.rs:31-43 | a value passes exactly when it parses as an i64 within min..=max; an unparsable value gets the "can't be parsed as a number" message naming it, and an out-of-range one the "must be between" message naming min, max and the parsed number |
| Args.ValidateNumPlus | src/args.rs:33-40 | a leading `+` on digits that fit an i64 changes nothing: the verdict is the same as for the bare digits |
| Args.ValidateNumBadTail | src/args.rs:33-40 | a non-digit anywhere after the first character makes the value unparsable |
| Args.ValidateNumPrinted | src/args.rs:33-39 | a printed i64 passes exactly when it is in range; otherwise the message names min, max and the number |
| Args.ValidateNumNoDigits | src/args.rs:40 | a value with no digit is rejected as "can't be parsed as a number" |
| Args.DefaultsValid | src/args.rs:190-293 | every numeric default passes its own validator |
| Args.OptStringVec | src/args.rs:45-49 | one part per comma-separated piece of the option (or of the empty text when absent), and part i is piece i lower-cased and then trimmed; every part is lower-case and comma-free |
| Args.NormalizePart | src/args.rs:47 | a part is the piece lower-cased and then trimmed, and it is lower-case and comma-free |
| Args.OptStringVecEmpty | src/args.rs:46-47 | an absent or empty option gives the one-element list `[""]` |
| Args.OptStringVecJoin | src/args.rs:45-49 | normalised parts joined with commas read back as the same parts |
| Args.OptStringVecIdempotent | src/args.rs:45-49 | reading a list, joining it and reading it again gives the same list |
| Args.ParseUnsigned | src/args.rs:344-353 | the unsigned parse succeeds exactly when `Text.ParseInt` does, with the same value; empty text gets the empty-string error; the overflow error is reported exactly when some all-digit prefix already exceeds the maximum, so the first offending character decides between overflow and invalid digit |
| Args.ScanDigits | src/args.rs:344-353 | scanning digits left to right with a running value succeeds exactly when all are digits and the value fits, and stops with the overflow error exactly when some prefix overflows before a non-digit is met |
| Args.OverflowBeforeInvalidDigit | src/args.rs:346 | `"999a"` as a u8 is refused for overflow, not for its invalid digit |
| Args.ValidatedParses | src/args.rs:344-353 | a value the validator accepted, with a positive lower bound, parses as the same number |
| Args.MinusZeroThreads | src/args.rs:293 | "-0" passes the thread-count validator but is then refused by the `usize` parse |
| Args.AppArgsFromMatches | src/args.rs:329-354 | settings exist exactly when every numeric field parses, and then each numeric field is its parsed value; the directories, template, ffmpeg options and binaries are passed through unchanged; y/n flags are true exactly for "y"; the output extension is the lower-cased option; the three list options are their comma splits; otherwise the error is that of the first failing parse in the order height, width, quality, threads, digits |
| Args.ValidatedMatchesParse | src/args.rs:190-293 | options that passed their validators always give settings, and each of the five numeric fields is the number the validator read |
| Cue.MaxId | src/cue.rs:90-98 | the result bounds every track id and is 0 or one of the ids |
| Cue.MaxTrackIndex | src/cue.rs:90-98 | the running-maximum loop computes MaxId |
| Cue.FindTrack | src/cue.rs:100-107 | a track is found by id, and none exactly when no track has that id |
| Cue.TrackByIndex | src/cue.rs:100-107 | the search loop returns FindTrack's answer |
| Cue.FindTrackFirst | src/cue.rs:100-107 | the first track with the id in block order is the one returned |
| Cue.StartFrames | src/cue.rs:109-116 | a start exists exactly when some index is numbered 1, and it is such an index's frame count |
| Cue.StartFramesFirst | src/cue.rs:109-116 | when several indexes are numbered 1, the first of them gives the start |
| Cue.TrackStart | src/cue.rs:109-116 | the search loop returns StartFrames's answer |
| Cue.SecondsExamples | src/cue.rs:14 | 75 frames are one second, 150 are two, 0 is zero |
| Cue.Capture | src/cue.rs:126-129 | a captured comment value is non-empty, one line, and the comment starts with the tag in any case |
| Cue.CaptureMatches | src/cue.rs:126-131 | tag, whitespace, then a value: the value is captured |
| Cue.CaptureNeedsWhitespace | src/cue.rs:126 | a tag run straight into its value does not match |
| Cue.Unquote | src/cue.rs:132-135 | surrounding quotes are removed only when both are there; otherwise the value is kept |
| Cue.UnquoteQuoted | src/cue.rs:132-135 | a quoted value loses exactly its quotes; a lone quote is kept |
| Cue.CommentForFirst | src/cue.rs:128-138 | the first matching comment gives the value |
| Cue.CommentForNone | src/cue.rs:140 | with no matching comment the value is "" |
| Cue.ExtractComment | src/cue.rs:125-141 | the comment loop returns the specified value |
| Cue.TrackInfo | src/cue.rs:143-171 | info exists exactly when the track has an index 01; start is its frames/75; a duration exists only when the next id's track starts strictly later, and is the difference/75; track is the id and tracks the maximum id |
| Cue.TrackInfoFallbacks | src/cue.rs:159-162 | album is the disc title, title only the track title, performer and songwriter fall back to the disc's |
| Cue.CueTrackInfo | src/cue.rs:143-171 | the imperative extraction equals TrackInfo |
| Cue.InfosUpToCount | src/cue.rs:57-62 | one info per track that has an index 01 |
| Cue.Contiguous | src/cue.rs:143-154 | the next track is found by id; when it starts later the duration is the gap |
| Cue.BlockExample | src/cue.rs:56-62 | a block with ids 2, 1, 5 gives three infos with tracks "5" and a duration only where id+1 exists |
| Cue.ExampleMax | src/cue.rs:90-98 | the disc count is the largest id, not the number of tracks |
| Cue.InfoInFile | src/cue.rs:47-71 | infos exist exactly when the sheet parsed and has a FILE block; only the first block is read |
| Cue.FindCueInfoInFile | src/cue.rs:47-71 | the push loop returns InfoInFile's list |
| Cue.CueInfoFor | src/cue.rs:73-88 | the `.cue`-replaced name is tried first, then the name with `.cue` appended; the first that gives infos wins |
| Cue.FindCueInfo | src/cue.rs:73-88 | the lookup returns CueInfoFor's answer |
| Meta.FieldsRoundTrip | src/meta.rs:50-76 | the 24 tag fields and the record convert both ways without loss |
| Meta.Normalize | src/meta.rs:100-120 | a normalised key holds only a-z and is no longer than the raw key |
| Meta.NormalizeLowerLetters | src/meta.rs:119-120 | a key of lower-case letters is its own normal form |
| Meta.KeyLessTotal | src/meta.rs:110-116 | the key order (lower-cased, then raw) is total over distinct keys |
| Meta.KeyLessTransitive | src/meta.rs:110-116 | the key order is transitive |
| Meta.SortedUnique | src/meta.rs:109-116 | there is exactly one strictly sorted sequence of a key set |
| Meta.SortKeys | src/meta.rs:109-116 | the insertion sort returns that sequence |
| Meta.NormalizedTags | src/meta.rs:118-124 | the insert loop builds the normalised map |
| Meta.NormalizedDomain | src/meta.rs:118-124 | a name is in the map exactly when some key normalises to it and holds a string |
| Meta.NormalizedLastWins | src/meta.rs:109-124 | among keys with one normal form, the last in sort order gives the value |
| Meta.FoldDomain | src/meta.rs:118-124 | a name is stored exactly when some visited key normalises to it and holds a string |
| Meta.FoldValue | src/meta.rs:118-124 | the last visited key with a given normal form and a string value decides that name's value |
| Meta.CaseCollisionExample | src/meta.rs:109-124 | "ARTIST" and "Artist" collide and "Artist" wins |
| Meta.FirstValueFirst | src/meta.rs:89-96 | the earliest priority key present gives the value |
| Meta.FirstValueNone | src/meta.rs:95 | no key present gives "" |
| Meta.FirstVal | src/meta.rs:89-96 | the lookup loop returns the specified value |
| Meta.ArtistPriority | src/meta.rs:129 | artist prefers albumartist, then artist, then artists |
| Meta.ApplyCue | src/meta.rs:153-182 | each non-empty CUE field replaces the tag; an empty one leaves it alone; a performer sets both performer and artist; nothing else changes |
| Meta.SplitTrack | src/meta.rs:184-191 | only an `N/M` track is changed; other fields stay; a non-empty tracks is kept |
| Meta.SplitTrackFraction | src/meta.rs:184-191 | `N/M` becomes track N, and tracks M when tracks was empty |
| Meta.SplitTrackOnce | src/meta.rs:184-191 | splitting twice is splitting once |
| Meta.FillTags | src/meta.rs:98-194 | the imperative tag filling equals the specification: normalised map, priority lookups, file names, CUE overlay, split |
| Meta.SanitizeTags | src/meta.rs:204-231 | every field, and only it, goes through the file-name sanitiser |
| Meta.FillYearDate | src/meta.rs:236-245 | only year and date change; an empty year takes the date's leading four digits when it has them; an empty date takes the year; when both are empty nothing changes |
| Meta.FillTitleAlbum | src/meta.rs:247-253 | an empty title becomes the file base, an empty album the directory name |
| Meta.FillArtistAuthor | src/meta.rs:255-265 | the artist is the first non-empty of artist, author, performer; the author is kept when set and otherwise becomes the new artist; the two end both empty or both set |
| Meta.FillWriters | src/meta.rs:267-283 | the songwriter is the first non-empty of songwriter, composer, lyricist, artist; composer and lyricist are kept when set and otherwise become the new songwriter; the three end all set or all empty |
| Meta.FillFallback | src/meta.rs:233-286 | only year, date, title, album, artist, author, songwriter, composer and lyricist change, each by its rule above, with the songwriter chain ending at the filled artist; every other field is untouched |
| Meta.FillFallbackIdempotent | src/meta.rs:233-286 | applying the fallback to its own result changes nothing |
| Meta.LastCover | src/meta.rs:309-325 | a picture is found exactly when some stream is a front cover with a size; the last such stream gives the size |
| Meta.ScanStreams | src/meta.rs:309-325 | the stream loop sets the picture flag and size from the last cover stream and keeps the tags |
| Meta.ExtractMeta | src/meta.rs:288-328 | a failed probe is the error; otherwise the tags are the filled tags and the picture comes from the stream scan |
| ConcurrentMap.Table.constructor | src/concurrent_map.rs:17-19 | a new table holds no entry and has run nothing |
| ConcurrentMap.ConcurrentMap.constructor | src/concurrent_map.rs:17-19 | a new map is empty |
| ConcurrentMap.ConcurrentMap.Share | src/concurrent_map.rs:79-83 | a handle built on a table uses exactly that table |
| ConcurrentMap.ConcurrentMap.Get | src/concurrent_map.rs:21-37 | a value is returned exactly for a computed key, and it is the stored value |
| ConcurrentMap.ConcurrentMap.Set | src/concurrent_map.rs:39-66 | a stored value is returned without computing; a new key is computed once, stored and returned, and its ghost count of computations goes up by one, to exactly 1; other keys are untouched |
| ConcurrentMap.ConcurrentMap.SetIfNotExists | src/concurrent_map.rs:68-76 | the same as Set: at most one computation per key, nothing evicted or overwritten |
| ConcurrentMap.ConcurrentMap.Clone | src/concurrent_map.rs:79-83 | a clone shares the table, so stores through either handle are seen by both |
| ConcurrentMap.SharedMemo | src/concurrent_map.rs:68-83 | a value stored through one handle is what a clone returns, even with another computation offered |
| Pics.ScaleFilterInjective | src/pics.rs:13-15 | the scale filter determines the width and height bounds it embeds |
| Pics.FfmpegConvPicArgs | src/pics.rs:12-20 | `-vf`, the scale filter of the maximum size, then the format's quality arguments |
| Pics.ConvPicCommand | src/pics.rs:30-36 | `-i file -f mjpeg`, the picture arguments, then `-` |
| Pics.ConvPic | src/pics.rs:22-53 | Ogg reads the file; a dry run gives empty bytes; otherwise the transcoder's output when it exits 0, and none if it cannot run, has no exit code or fails |
| Pics.ConvPicIfNeeded | src/pics.rs:55-65 | the result is the cached conversion, a missing result is cached too, and a cached key is never converted again; a new key is added with one computation and nothing else in the cache changes |
| Pics.NoExtensionMatch | src/pics.rs:75-87 | a file with no extension matches only when "" is a cover extension |
| Pics.CoverScan | src/pics.rs:67-92 | a returned path comes from a matching regular file; no match gives none |
| Pics.CoverScanFirst | src/pics.rs:69-88 | the first matching entry in directory order is returned |
| Pics.MatchesCover | src/pics.rs:78-87 | the nested loops find a match exactly when base name and extension are both listed |
| Pics.FindCoverInDir | src/pics.rs:67-92 | an unreadable directory gives none; otherwise the scan's answer |
| Convert.SanitizeFilename | src/convert.rs:37-43 | the result is relative, and every segment is a real name, never `.`, `..` or empty |
| Convert.SanitizeIgnoresPrefix | src/convert.rs:37-40 | the `/..///` prefix only anchors the name at the root: sanitising resolves the name's own segments |
| Convert.ResolveClean | src/convert.rs:39 | resolving clean segments changes nothing |
| Convert.SanitizeIdempotent | src/convert.rs:37-43 | sanitising twice is sanitising once |
| Convert.SanitizeKeepsClean | src/convert.rs:37-43 | an already clean relative name is kept as it is |
| Convert.SanitizeLeadingUp | src/convert.rs:38-40 | a leading `../` cannot climb out: it is dropped |
| Convert.SanitizeEscape | src/convert.rs:37-43 | `../../etc/passwd` becomes `etc/passwd` |
| Convert.OutputPath | src/convert.rs:127-131 | the output path is the output directory followed by the sanitised rendered name and extension, with a `/` between them exactly when the directory is non-empty and does not already end with one; the sanitised name is never absolute, so it cannot replace the directory |
| Convert.PadLeft | src/convert.rs:116-123 | zeros are added on the left up to the width and nothing is truncated |
| Convert.PadTags | src/convert.rs:117-123 | the two in-place padding steps compute PadTrackNumbers |
| Convert.PadTrackNumbers | src/convert.rs:116-123 | tracks is padded to the minimum, track to the larger of that and the padded tracks' length, empty values stay empty, and no other tag changes |
| Convert.PadExamples | src/args.rs:263-266 | min 3 turns 42/50 into 042/050; min 1 turns 13/150 into 013/150 |
| Convert.AddMeta | src/convert.rs:49-55 | exactly `-metadata name=value` is appended for a non-empty value, and nothing otherwise |
| Convert.TrackValue | src/convert.rs:162-166 | the track tag is written as track/tracks when both are set, else as track |
| Convert.AddMetasAppends | src/convert.rs:151-166 | the metadata steps only append to the list |
| Convert.MetadataShape | src/convert.rs:151-166 | the appended list is `-metadata` pairs, each of a non-empty tag |
| Convert.AudioArgsFor | src/convert.rs:149-166 | the audio arguments are the format's list followed by the metadata of the probed tags |
| Convert.MetadataArgs | src/convert.rs:149-166 | the step-by-step appends build AudioArgsFor |
| Convert.ValidateTemplate | src/convert.rs:66-105 | the template is accepted exactly when it renders both with empty tags and with tags all "1", and the first failing render's error is returned |
| Convert.CueArgs | src/convert.rs:168-187 | `-ss:a start` whenever there is CUE data, and `-t:a duration` only when a printed duration exists |
| Convert.SeekArgs | src/convert.rs:143-187 | the preamble and the seek arguments are built in that order |
| Convert.CommandArgs | src/convert.rs:143-257 | the preamble first, the seek arguments before `-i input`, the passthrough options, and the output path last |
| Convert.AppendGenerated | src/convert.rs:193-257 | the generated arguments for each picture choice are appended in place |
| Convert.Checked | src/convert.rs:133-141 | "no parent for", then "file exists:" when overwriting is off, then a failed directory creation, in that order; a dry run creates nothing |
| Convert.PicFor | src/convert.rs:193-216 | an embedded picture is used when present and allowed; otherwise a found cover whose conversion fails is "can't convert:"; no picture exactly when neither exists |
| Convert.ChoosePicture | src/convert.rs:193-216 | the picture choice through the cache equals PicFor and keeps the cache coherent; the cache changes only by the cover file looked up, which is added with one computation when new |
| Convert.Finish | src/convert.rs:268-274 | a dry run succeeds with the output path; a failed start is the error; a missing exit code or a non-zero one is an error (stderr for the latter); success returns the path |
| Convert.RunTranscoder | src/convert.rs:202-265 | running the transcoder, feeding the picture when there is one, ends as Finish says |
| Convert.RunWith | src/convert.rs:143-274 | success returns the output path; in a dry run success is exactly a usable picture choice; a picture failure propagates |
| Convert.RunConversion | src/convert.rs:143-274 | the imperative second half of a conversion equals RunWith, and changes the cache only by the picture choice's lookup |
| Convert.ConvOutcomeFacts | src/convert.rs:107-141 | success means the target was computed and overwriting is allowed; target and check errors propagate |
| Convert.DryRun | src/convert.rs:139-274 | in a dry run the outcome does not depend on directory creation or transcoding, and a clean target with a usable picture succeeds with its path |
| Convert.RenderOutput | src/convert.rs:116-131 | fallback, padding, sanitising, rendering and the join onto the output directory give the specified output path or the rendering error |
| Convert.PrepareTarget | src/convert.rs:109-131 | the input directory, the probe and the output path are computed in that order, and the first failure is returned |
| Convert.CheckedRun | src/convert.rs:133-142 | a failed output check is the outcome and leaves the picture cache untouched; otherwise the outcome is RunWith and the cache changes only by the picture choice's lookup |
| Convert.ConvItem | src/convert.rs:107-275 | the whole conversion of one item equals the specified outcome and keeps the picture cache coherent; the cache changes only by the cover file the item looks up, and not at all when the item fails before its picture is chosen |
| Files.FileItems | src/files.rs:41-60 | one item per CUE info in order, or one item without CUE data; all share file name and base name, with index and total 0 |
| Files.ItemsFrom | src/files.rs:20-66 | every item of a listing is a kept file with its stem as base name |
| Files.Collect | src/files.rs:14-67 | every collected item passes the extension filter |
| Files.CollectError | src/files.rs:14-18 | discovery fails exactly when some input directory is missing, and the error names the first missing one |
| Files.CollectErrorStays | src/files.rs:16-18 | a missing directory ends discovery; later directories change nothing |
| Files.EntryIncluded | src/files.rs:21-62 | every entry's items are among the listing's items |
| Files.SubdirIncluded | src/files.rs:25-27 | a subdirectory's items are included |
| Files.FileFilter | src/files.rs:28-41 | a regular file is expanded exactly when its lower-cased extension is listed or it has none |
| Files.FileEntryItems | src/files.rs:28-61 | every item of a regular file is a kept file with its stem as base name and no number yet |
| Files.WalkDir | src/files.rs:20-66 | the entry loop collects exactly the listing's items |
| Files.WalkEntry | src/files.rs:22-62 | one entry: a subdirectory is walked, a regular file is filtered and expanded, anything else gives nothing |
| Files.WalkFile | src/files.rs:29-61 | the extension filter and the CUE expansion of one file give its specified items |
| Files.CollectMissing | src/files.rs:14-18 | a missing directory after successful ones makes discovery fail with "not found:" and its name |
| Files.CollectDirs | src/files.rs:14-67 | the loop over the input directories computes the specified collection, stopping at the first missing one |
| Files.Insert | src/files.rs:69 | inserting into a sorted list keeps it sorted and adds exactly one item |
| Files.SortByBasename | src/files.rs:69 | the sort is by the comparator on base names and is a permutation |
| Files.Number | src/files.rs:70-74 | item i gets index i and every item gets the item count |
| Files.UnnumberedSorted | src/files.rs:69-74 | numbering changes nothing but the index and total of the sorted items |
| Files.SortAndNumber | src/files.rs:69-74 | the result is a sorted permutation of the collected items, numbered 0..n-1 with total n |
| Files.FindFiles | src/files.rs:11-77 | discovery errors are passed on; otherwise the result is the collected items, sorted by base name, permuted only, and numbered 0..n-1 with total n |
| Entry.ToResult | src/entry.rs:26-31 | success becomes Filename(path) and failure Error(message) |
| Entry.Run | src/entry.rs:17-37 | one outcome per item, in item order, each the item's own conversion outcome |
| Entry.ConvStep | src/entry.rs:25-32 | one item's result is its own outcome, and the cache grows by at most the cover file it looks up |
| Entry.ConvertAll | src/entry.rs:22-34 | the items converted through one shared cache each get their own outcome; the cache stays coherent and ends up holding exactly what it held plus the cover files the items looked up, with nothing dropped, replaced or converted twice |
| Entry.FirstSameFrom | src/entry.rs:88-98 | the first later item with the same path, or none |
| Entry.KeepsLast | src/entry.rs:86-103 | a path is kept exactly when no later item has it, so only the last duplicate survives |
| Entry.ErrorMessage | src/entry.rs:88-105 | a demoted duplicate names its file, the path and the first later item with it; a failure is "file: message" |
| Entry.EveryOutcomeCounted | src/entry.rs:81-107 | kept paths plus reports equal the item count |
| Entry.ValidMembers | src/entry.rs:83-104 | a path is kept exactly when some item resolved to it and no later item did |
| Entry.ValidDistinct | src/entry.rs:83-104 | kept paths are pairwise distinct |
| Entry.SuccessKept | src/entry.rs:83-104 | every path some item resolved to is kept once |
| Entry.Aggregate | src/entry.rs:81-107 | the nested loops compute exactly the kept paths and the reports, in item order |
| Entry.NoErrors | src/entry.rs:82-104 | no report is made exactly when every outcome is a path and no two outcomes are the same path |
| Entry.RunVerdict | src/entry.rs:125-133 | with each result its item's outcome, no report is made exactly when every item succeeded with a path of its own |
| Entry.Execute | src/entry.rs:70-136 | template validation and tool lookup come first; discovery errors end the run; otherwise the items are the sorted, numbered collected files, each result is its item's conversion outcome, the kept paths and reports are those of the summary, and the run fails with "Some errors occurred" exactly when some item failed or two items resolved to one path |
| Paths.FileName | src/meta.rs:147-148 | the final component of a path holds no slash |
| Paths.FileNameSuffix | src/meta.rs:147-148 | the final component is a suffix of the path, and when it is shorter than the path a slash comes right before it |
| Paths.NameExtension | src/pics.rs:75-76 | a name is its stem, a dot and its extension, or its stem alone when it has no extension |
| Paths.WithExtensionReplaces | src/cue.rs:74 | replacing the extension keeps the directory and the stem and puts the new extension after a dot |
| Paths.WithExtensionHidden | src/cue.rs:74 | a hidden file's name is all stem, so the new extension is appended to it |

## Left out

- Input and output are not modelled. Reading files, parsing CUE sheets, listing directories, ffprobe and ffmpeg runs, `canonicalize`, `exists` and `create_dir_all` are function fields of `Externals.World`, given as inputs. One call with the same arguments always gets the same answer.
- The third-party CUE parser, the regex that strips `FLAGS` lines and the lossy UTF-8 decoding of sheets are not modelled: `World.readSheet` returns the parsed sheet.
- Handlebars rendering and the `sanitize_filename` crate behind `filesafe_str` are abstract (`World.render`, `World.filesafe`).
- `normalize_pic_quality` computes with `f32` and truncating casts. It is the abstract `World.normalizeQuality`.
- The `{:.3}` printing of CUE times is the abstract `World.seconds`. CUE times are exact reals (frames/75), so `f64` rounding is not modelled.
- Lower-casing and the case-insensitive comment regex are ASCII-only. Unicode case mapping is not modelled.
- `\s` is the Unicode White_Space set.
- `Meta.LeadingYear`: the regex `\d` (src/meta.rs:101, 238) matches any Unicode decimal digit in Rust; the model takes ASCII digits only, so a year or track number written in other scripts' digits is not recognised.
- The natural comparator `natural_lexical_only_alnum_cmp` is an abstract total preorder `le`.
- Files.SortByBasename: the in-place unstable `sort_unstable_by` is modelled on a sequence by an insertion sort. Its contract promises only a sorted permutation, because ties have no guaranteed order in the source either.
- Files.FindFiles: the source recursion sorts and numbers each subdirectory's items before the outer call sorts and numbers them again. The model collects the whole tree and sorts once. The outer unstable sort and renumbering decide the result either way.
- Files.Collect: if a subdirectory vanishes between listing and walking, the source fails with "not found"; the model does not cover this. Entries whose type or name cannot be read as UTF-8 are `BadEntry`/`OtherKind` and are skipped.
- Thread pool and lock races are not modelled: the rayon pool, its `build_global` error, and the `RwLock`/`Arc` single-flight behaviour of `ConcurrentMap` under racing callers. The map's contract is the sequential one, and items are converted one after another in item order.
- `Externals.World` does not see the program's own writes: `pathExists` answers for the files as they were before the run. In the program, once one item's ffmpeg run has created its output path, a later `exists` check on that path (src/convert.rs:135) fails with "file exists" unless overwriting is allowed. So when two items resolve to one path outside a dry run, the program fails one of them at that check: which one depends on the thread schedule, and with one thread it is the later item. The model converts both against the same `World`, so both succeed and `Entry.Aggregate` reports the earlier one as a collision instead. The same holds for any item whose output path another item's run has already written.
- `ConcurrentMap.ConcurrentMap.Set`: the `panic!` taken when a lock is poisoned is not modelled.
- Console output is not modelled: `print_tree`, `print_info`, `print_args`, the `PIC` lines and the summary `println`s.
- CLI parsing is not modelled: the `clap` definitions, help text, the help-displayed `Ok(None)` path and the build-time version strings. `Args.Matches` stands for what the matcher hands over.
- `find_prog`/`which` is not modelled. Its outcome is the `tools` parameter of `Entry.Execute`.
- The `output_ext_type` format and the program paths are plain parameters (`format`, and the external functions of `World`).
- Convert.SanitizeFilename: `path_dedot` is re-modelled as lexical resolution over `/`-separated segments. Its error paths and the `strip_prefix` and `to_str` failures cannot occur for the `"/..///"`-prefixed strings the model handles, so the model never fails. Windows prefixes and `\` separators are not modelled.
- `Paths.HasParent`: a path has a parent when it holds a character other than `/`, that is, when it is neither empty nor the root. This approximates `Path::parent` on the joined output path.
- Convert.PadTrackNumbers: padding widths count characters. The source compares byte lengths, which differ only for non-ASCII track numbers.
- Non-UTF-8 failures of `to_str` and `from_utf8` are not modelled; the transcoder's stderr is given as text. The same goes for the `canonicalize().unwrap()` panic in `fill_tags`: the canonical path is an input.
- Cue ids are `u8`. The id+1 lookup wraps at 256 as release builds do; the overflow panic of debug builds is not modelled.
- `Cue.TrackInfo`: `track` and `tracks` are the decimal ids without the no-op `trim`.
