/** The two output formats and the fixed ffmpeg arguments each one gets. */
module Formats {
  import opened Text

  datatype Format = MP3 | Ogg

  const MinQuality: nat := 1
  const MaxQuality: nat := 100

  /** The audio encoder defaults of a format. */
  function AudioArgs(f: Format): (r: seq<string>)
    ensures |r| >= 2 && r[..2] == ["-b:a", "320k"]
    ensures f.Ogg? ==> |r| == 2
  {
    match f
    case MP3 => ["-b:a", "320k", "-write_id3v2", "1", "-id3v2_version", "4"]
    case Ogg => ["-b:a", "320k"]
  }

  /** The defaults as the program's help text lists them. */
  const Mp3DefaultsHelp: string := "-b:a 320k -write_id3v2 1 -id3v2_version 4"
  const OggDefaultsHelp: string := "-b:a 320k"

  // The MP3 help text, one argument at a time from the end.
  lemma Mp3HelpTail2()
    ensures Join(["-id3v2_version", "4"], ' ') == "-id3v2_version 4"
  {
    JoinCons("-id3v2_version", ["4"], ' ');
  }

  lemma Mp3HelpTail3()
    ensures Join(["1", "-id3v2_version", "4"], ' ') == "1 -id3v2_version 4"
  {
    Mp3HelpTail2();
    JoinCons("1", ["-id3v2_version", "4"], ' ');
  }

  lemma Mp3HelpTail4()
    ensures Join(["-write_id3v2", "1", "-id3v2_version", "4"], ' ') == "-write_id3v2 1 -id3v2_version 4"
  {
    Mp3HelpTail3();
    JoinCons("-write_id3v2", ["1", "-id3v2_version", "4"], ' ');
  }

  lemma Mp3HelpTail5()
    ensures Join(["320k", "-write_id3v2", "1", "-id3v2_version", "4"], ' ') == "320k -write_id3v2 1 -id3v2_version 4"
  {
    var rest := ["-write_id3v2", "1", "-id3v2_version", "4"];
    Mp3HelpTail4();
    assert Join(rest, ' ') == "-write_id3v2 1 -id3v2_version 4";
    JoinCons("320k", rest, ' ');
    assert ["320k"] + rest == ["320k", "-write_id3v2", "1", "-id3v2_version", "4"];
    Mp3HelpConcat5();
  }

  lemma Mp3HelpConcat5()
    ensures "320k" + [' '] + "-write_id3v2 1 -id3v2_version 4" == "320k -write_id3v2 1 -id3v2_version 4"
  {
  }

  /** The MP3 argument list is exactly what the help text documents. */
  lemma Mp3ArgsMatchHelp()
    ensures Join(AudioArgs(MP3), ' ') == Mp3DefaultsHelp
  {
    var rest := ["320k", "-write_id3v2", "1", "-id3v2_version", "4"];
    Mp3HelpTail5();
    assert Join(rest, ' ') == "320k -write_id3v2 1 -id3v2_version 4";
    JoinCons("-b:a", rest, ' ');
    assert ["-b:a"] + rest == AudioArgs(MP3);
    Mp3HelpConcat6();
  }

  lemma Mp3HelpConcat6()
    ensures "-b:a" + [' '] + "320k -write_id3v2 1 -id3v2_version 4" == Mp3DefaultsHelp
  {
  }

  /** The Ogg argument list is exactly what the help text documents. */
  lemma OggArgsMatchHelp()
    ensures Join(AudioArgs(Ogg), ' ') == OggDefaultsHelp
  {
    JoinCons("-b:a", ["320k"], ' ');
  }

  /** The picture quality arguments for a quality that `normalize` maps onto
      the encoder's own scale (the floating-point mapping itself is a
      parameter of the model). */
  function PicQualityArgs(f: Format, quality: nat, normalize: (Format, nat) -> nat): (r: seq<string>)
    ensures |r| >= 2 && r[|r| - 2..] == ["-q:v", Decimal(normalize(f, quality))]
    ensures f.MP3? <==> |r| == 4
    ensures f.MP3? ==> r[..2] == ["-qmin", "1"]
  {
    var q := Decimal(normalize(f, quality));
    match f
    case MP3 => ["-qmin", "1", "-q:v", q]
    case Ogg => ["-q:v", q]
  }
}
