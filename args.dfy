/** The command-line options of the converter after `clap` has matched
    them: the range validators, the comma-separated lists and the mapping
    of the matched strings onto the settings record. */
module Args {
  import opened Wrappers
  import opened Text

  /** The settings the rest of the program reads. */
  datatype AppArgs = AppArgs(
    inputDirs: seq<string>,
    outputDir: string,
    filenameTemplate: string,
    dryRun: bool,
    inputExts: seq<string>,
    outputExt: string,
    overwrite: bool,
    ffmpegOpts: seq<string>,
    maxPicWidth: nat,
    maxPicHeight: nat,
    picQuality: nat,
    useEmbedPic: bool,
    ffmpegBin: Option<string>,
    ffprobeBin: Option<string>,
    threadsCount: nat,
    coverNames: seq<string>,
    coverExts: seq<string>,
    minTrackNumberDigits: nat)

  const U8Max: nat := 0xFF
  const U16Max: nat := 0xFFFF
  /** `usize` on a 64-bit target. */
  const UsizeMax: nat := 0xFFFF_FFFF_FFFF_FFFF

  // ---------------------------------------------------------------------
  // Range validators

  /** The validator attached to a numeric option: the value must parse as
      an `i64` and lie in min..=max. */
  function ValidateNum(min: int, max: int, v: string): (r: Result<()>)
    ensures r.Ok? <==> ParseI64(v).Some? && min <= ParseI64(v).value <= max
    ensures ParseI64(v).None? ==> r == Err("\"" + v + "\" can't be parsed as a number.")
    ensures ParseI64(v).Some? && !(min <= ParseI64(v).value <= max) ==>
      r == Err("The number must be between " + IntToString(min) + " and " + IntToString(max)
               + ", but got " + IntToString(ParseI64(v).value) + ".")
  {
    match ParseI64(v)
    case Some(i) =>
      if i < min || i > max then
        Err("The number must be between " + IntToString(min) + " and " + IntToString(max)
            + ", but got " + IntToString(i) + ".")
      else Ok(())
    case None => Err("\"" + v + "\" can't be parsed as a number.")
  }

  /** A printed `i64` passes the validator exactly when it is in range, and
      otherwise the message names the bounds and the number. */
  lemma ValidateNumPrinted(min: int, max: int, i: int)
    requires I64Min <= i <= I64Max
    ensures ValidateNum(min, max, IntToString(i)).Ok? <==> min <= i <= max
    ensures !(min <= i <= max) ==>
      ValidateNum(min, max, IntToString(i)).error
      == "The number must be between " + IntToString(min) + " and " + IntToString(max)
         + ", but got " + IntToString(i) + "."
  {
    ParseIntToString(i, I64Min, I64Max);
  }

  /** A value without a single digit is reported as unparsable. */
  lemma ValidateNumNoDigits(min: int, max: int, v: string)
    requires forall k :: 0 <= k < |v| ==> !IsDigit(v[k])
    ensures ValidateNum(min, max, v) == Err("\"" + v + "\" can't be parsed as a number.")
  {
  }

  /** A '+' before the digits of an `i64` changes nothing. */
  lemma ValidateNumPlus(min: int, max: int, d: string)
    requires d != [] && AllDigits(d) && DigitsValue(d) <= I64Max
    ensures ValidateNum(min, max, "+" + d) == ValidateNum(min, max, d)
  {
    var v := "+" + d;
    assert |v| > 1 && v[0] == '+' && v[1..] == d;
    assert ParseI64(v) == ParseI64(d);
  }

  /** Any character after the first that is not a digit (a trailing
      letter, a second sign) makes the value unparsable. */
  lemma ValidateNumBadTail(min: int, max: int, v: string, k: nat)
    requires 1 <= k < |v| && !IsDigit(v[k])
    ensures ValidateNum(min, max, v) == Err("\"" + v + "\" can't be parsed as a number.")
  {
    assert !AllDigits(v);
    assert v[1..][k - 1] == v[k];
  }

  /** The default values of the numeric options pass their validators. */
  lemma DefaultsValid()
    ensures ValidateNum(1, 5000, "500").Ok?
    ensures ValidateNum(1, 31, "2").Ok?
    ensures ValidateNum(1, 10, "2").Ok?
    ensures ValidateNum(0, 1024, "0").Ok?
  {
    assert IntToString(500) == "500";
    ParseIntToString(500, I64Min, I64Max);
    ParseIntToString(2, I64Min, I64Max);
    ParseIntToString(0, I64Min, I64Max);
  }

  // ---------------------------------------------------------------------
  // Comma-separated lists

  /** Each comma-separated part, lower-cased and then trimmed; an absent
      value is the empty string and so gives one empty part. */
  function OptStringVec(opt: Option<string>): (r: seq<string>)
    ensures |r| == Count(opt.GetOr(""), ',') + 1 == |Split(opt.GetOr(""), ',')|
    ensures forall i :: 0 <= i < |r| ==> r[i] == Trim(Lower(Split(opt.GetOr(""), ',')[i]))
    ensures forall i :: 0 <= i < |r| ==> IsLower(r[i]) && ',' !in r[i]
  {
    var parts := Split(opt.GetOr(""), ',');
    SplitCount(opt.GetOr(""), ',');
    seq(|parts|, i requires 0 <= i < |parts| => NormalizePart(parts[i]))
  }

  /** One part: lower-cased, then trimmed; it stays lower-case and
      comma-free. */
  function NormalizePart(part: string): (r: string)
    requires ',' !in part
    ensures r == Trim(Lower(part))
    ensures IsLower(r) && ',' !in r
  {
    var l := Lower(part);
    LowerIsLower(part);
    assert ',' !in l by {
      forall k | 0 <= k < |l| ensures l[k] != ',' { assert part[k] != ','; }
    }
    TrimIsLower(l);
    var r := Trim(l);
    assert ',' !in r;
    r
  }

  /** An empty or absent list still has one entry, the empty string, which
      is how "--cover-ext=" selects files without an extension. */
  lemma OptStringVecEmpty()
    ensures OptStringVec(None) == [""]
    ensures OptStringVec(Some("")) == [""]
  {
  }

  /** A part that is already lower-case, trimmed and comma-free. */
  predicate IsNormalPart(p: string) {
    IsLower(p) && ',' !in p && (p == [] || (!IsWhitespace(p[0]) && !IsWhitespace(p[|p| - 1])))
  }

  /** Joining normalised parts with commas and reading them back gives the
      same parts. */
  lemma OptStringVecJoin(parts: seq<string>)
    requires |parts| >= 1
    requires forall i :: 0 <= i < |parts| ==> IsNormalPart(parts[i])
    ensures OptStringVec(Some(Join(parts, ','))) == parts
  {
    SplitJoin(parts, ',');
    var r := OptStringVec(Some(Join(parts, ',')));
    forall i | 0 <= i < |parts|
      ensures r[i] == parts[i]
    {
      var p := parts[i];
      LowerIsLower(p);
      assert Trim(p) == p;
    }
  }

  /** Reading a list twice changes nothing more than reading it once. */
  lemma OptStringVecIdempotent(opt: Option<string>)
    ensures OptStringVec(Some(Join(OptStringVec(opt), ','))) == OptStringVec(opt)
  {
    OptStringVecJoin(OptStringVec(opt));
  }

  // ---------------------------------------------------------------------
  // Unsigned parsing with the standard library's error messages

  const EmptyIntMessage: string := "cannot parse integer from empty string"
  const InvalidDigitMessage: string := "invalid digit found in string"
  const TooLargeMessage: string := "number too large to fit in target type"

  /** The digits of an unsigned numeral: a leading '+' is skipped; a '-'
      is not, so it is read as an invalid digit. */
  function UnsignedDigits(s: string): string {
    if |s| > 0 && s[0] == '+' then s[1..] else s
  }

  /** The first j characters of d are digits whose value exceeds hi. */
  predicate Overflows(d: string, hi: nat, j: nat)
    requires j <= |d|
  {
    AllDigits(d[..j]) && DigitsValue(d[..j]) > hi
  }

  /** A longer run of digits never has a smaller value. */
  lemma {:induction false} PrefixValueGrows(d: string, i: nat, j: nat)
    requires i <= j <= |d| && AllDigits(d[..j])
    ensures AllDigits(d[..i]) && DigitsValue(d[..i]) <= DigitsValue(d[..j])
    decreases j - i
  {
    if i < j {
      assert d[..j][..j - 1] == d[..j - 1];
      PrefixValueGrows(d, i, j - 1);
    }
  }

  /** The standard library's digit loop from position k on: each character
      must be a digit, and the value read so far must stay within hi; the
      first character that breaks either rule decides the error. */
  function ScanDigits(d: string, hi: nat, k: nat): (r: Result<nat>)
    requires k <= |d| && AllDigits(d[..k]) && DigitsValue(d[..k]) <= hi
    ensures r.Ok? <==> AllDigits(d) && DigitsValue(d) <= hi
    ensures r.Ok? ==> r.value == DigitsValue(d)
    ensures r == Err(TooLargeMessage) <==> exists j :: k < j <= |d| && Overflows(d, hi, j)
    ensures r.Err? ==> r.error == TooLargeMessage || r.error == InvalidDigitMessage
    decreases |d| - k
  {
    if k == |d| then
      assert d[..k] == d;
      Ok(DigitsValue(d))
    else if !IsDigit(d[k]) then
      ScanInvalid(d, hi, k);
      Err(InvalidDigitMessage)
    else
      assert d[..k + 1][..k] == d[..k];
      if DigitsValue(d[..k + 1]) > hi then
        ScanTooLarge(d, hi, k);
        assert Overflows(d, hi, k + 1);
        Err(TooLargeMessage)
      else
        ScanDigits(d, hi, k + 1)
  }

  /** A non-digit at k, after digits within range, rules out success and
      every overflowing prefix. */
  lemma ScanInvalid(d: string, hi: nat, k: nat)
    requires k < |d| && AllDigits(d[..k]) && DigitsValue(d[..k]) <= hi && !IsDigit(d[k])
    ensures !AllDigits(d)
    ensures forall j :: k < j <= |d| ==> !Overflows(d, hi, j)
  {
    forall j | k < j <= |d|
      ensures !Overflows(d, hi, j)
    {
      assert d[..j][k] == d[k];
    }
  }

  /** The digits up to k + 1 overflow, so the whole cannot be read. */
  lemma ScanTooLarge(d: string, hi: nat, k: nat)
    requires k < |d| && AllDigits(d[..k + 1]) && DigitsValue(d[..k + 1]) > hi
    ensures !(AllDigits(d) && DigitsValue(d) <= hi)
  {
    if AllDigits(d) {
      assert d[..|d|] == d;
      PrefixValueGrows(d, k + 1, |d|);
    }
  }

  /** `str::parse` for an unsigned type with maximum `hi`, with the
      standard library's errors: an empty string, a lone sign or a
      character that is not a digit, and a value that no longer fits,
      reported at the first character where one of them happens. */
  function ParseUnsigned(s: string, hi: nat): (r: Result<nat>)
    ensures r.Ok? <==> ParseInt(s, false, 0, hi).Some?
    ensures r.Ok? ==> r.value == ParseInt(s, false, 0, hi).value
    ensures r == Err(EmptyIntMessage) <==> s == []
    ensures r == Err(TooLargeMessage) <==>
      s != [] && exists j :: 0 < j <= |UnsignedDigits(s)| && Overflows(UnsignedDigits(s), hi, j)
    ensures r.Err? ==> r.error in {EmptyIntMessage, InvalidDigitMessage, TooLargeMessage}
  {
    if |s| == 0 then Err(EmptyIntMessage)
    else if (s[0] == '+' || s[0] == '-') && |s| == 1 then
      assert UnsignedDigits(s) == [] || UnsignedDigits(s) == "-";
      assert forall j :: 0 < j <= |UnsignedDigits(s)| ==> !IsDigit(UnsignedDigits(s)[..j][0]);
      Err(InvalidDigitMessage)
    else
      var d := UnsignedDigits(s);
      assert d[..0] == [];
      ScanDigits(d, hi, 0)
  }

  /** Rust reports an overflow before a later invalid digit: "999a" does
      not fit a `u8`, and that is the error, not the letter. */
  lemma OverflowBeforeInvalidDigit()
    ensures ParseUnsigned("999a", U8Max) == Err(TooLargeMessage)
  {
    var d := "999a";
    assert d[..3] == "999" && AllDigits(d[..3]);
    assert DigitsValue("999") == 999 by {
      assert "999"[..2] == "99" && "99"[..1] == "9" && "9"[..0] == [];
    }
    assert Overflows(d, U8Max, 3);
  }

  /** A value the validator accepted parses as an unsigned number of any
      type wide enough for the upper bound, as long as it has no minus
      sign (which a positive lower bound already rules out). */
  lemma ValidatedParses(min: int, max: int, hi: nat, v: string)
    requires 0 <= min && max <= hi
    requires ValidateNum(min, max, v).Ok?
    requires 1 <= min || (|v| > 0 && v[0] != '-')
    ensures ParseUnsigned(v, hi) == Ok(ParseI64(v).value)
  {
  }

  /** "-0" passes the validator of the thread count (0..=1024) but is then
      rejected by the `usize` parse, so the option list is refused. */
  lemma MinusZeroThreads()
    ensures ValidateNum(0, 1024, "-0").Ok?
    ensures ParseUnsigned("-0", UsizeMax) == Err(InvalidDigitMessage)
  {
    assert "-0"[1..] == "0";
    assert DigitsValue("0") == 0;
  }

  // ---------------------------------------------------------------------
  // From matched option strings to settings

  /** The option values as the matcher hands them over (defaults filled
      in, each validator already passed). */
  datatype Matches = Matches(
    inputDirs: seq<string>,
    outputDir: string,
    filenameTemplate: string,
    ffmpegOptions: seq<string>,
    dryRun: string,
    inputExt: Option<string>,
    outputExt: string,
    overwrite: string,
    maxPicWidth: string,
    maxPicHeight: string,
    picQuality: string,
    useEmbedPic: string,
    coverName: Option<string>,
    coverExt: Option<string>,
    minTrackNumberDigits: string,
    ffmpegBin: Option<string>,
    ffprobeBin: Option<string>,
    threads: string)

  /** The settings built from the matched strings; the numeric fields are
      parsed in the order height, width, quality, threads, digits, and the
      first failure is the error. */
  function AppArgsFromMatches(m: Matches): (r: Result<AppArgs>)
    ensures r.Ok? <==>
      (&& ParseUnsigned(m.maxPicHeight, U16Max).Ok? && ParseUnsigned(m.maxPicWidth, U16Max).Ok?
       && ParseUnsigned(m.picQuality, U8Max).Ok? && ParseUnsigned(m.threads, UsizeMax).Ok?
       && ParseUnsigned(m.minTrackNumberDigits, U8Max).Ok?)
    ensures r.Ok? ==>
      && r.value.inputDirs == m.inputDirs
      && r.value.outputDir == m.outputDir
      && r.value.filenameTemplate == m.filenameTemplate
      && r.value.ffmpegOpts == m.ffmpegOptions
      && r.value.ffmpegBin == m.ffmpegBin
      && r.value.ffprobeBin == m.ffprobeBin
      && r.value.dryRun == (m.dryRun == "y")
      && r.value.overwrite == (m.overwrite == "y")
      && r.value.useEmbedPic == (m.useEmbedPic == "y")
      && r.value.outputExt == Lower(m.outputExt)
      && r.value.inputExts == OptStringVec(m.inputExt)
      && r.value.coverNames == OptStringVec(m.coverName)
      && r.value.coverExts == OptStringVec(m.coverExt)
    ensures r.Ok? ==>
      && r.value.maxPicHeight == ParseUnsigned(m.maxPicHeight, U16Max).value <= U16Max
      && r.value.maxPicWidth == ParseUnsigned(m.maxPicWidth, U16Max).value <= U16Max
      && r.value.picQuality == ParseUnsigned(m.picQuality, U8Max).value <= U8Max
      && r.value.threadsCount == ParseUnsigned(m.threads, UsizeMax).value <= UsizeMax
      && r.value.minTrackNumberDigits == ParseUnsigned(m.minTrackNumberDigits, U8Max).value <= U8Max
    ensures ParseUnsigned(m.maxPicHeight, U16Max).Err? ==> r == Err(ParseUnsigned(m.maxPicHeight, U16Max).error)
    ensures ParseUnsigned(m.maxPicHeight, U16Max).Ok? && ParseUnsigned(m.maxPicWidth, U16Max).Err? ==>
      r == Err(ParseUnsigned(m.maxPicWidth, U16Max).error)
    ensures (&& ParseUnsigned(m.maxPicHeight, U16Max).Ok? && ParseUnsigned(m.maxPicWidth, U16Max).Ok?
             && ParseUnsigned(m.picQuality, U8Max).Err?) ==>
      r == Err(ParseUnsigned(m.picQuality, U8Max).error)
    ensures (&& ParseUnsigned(m.maxPicHeight, U16Max).Ok? && ParseUnsigned(m.maxPicWidth, U16Max).Ok?
             && ParseUnsigned(m.picQuality, U8Max).Ok? && ParseUnsigned(m.threads, UsizeMax).Err?) ==>
      r == Err(ParseUnsigned(m.threads, UsizeMax).error)
    ensures (&& ParseUnsigned(m.maxPicHeight, U16Max).Ok? && ParseUnsigned(m.maxPicWidth, U16Max).Ok?
             && ParseUnsigned(m.picQuality, U8Max).Ok? && ParseUnsigned(m.threads, UsizeMax).Ok?
             && ParseUnsigned(m.minTrackNumberDigits, U8Max).Err?) ==>
      r == Err(ParseUnsigned(m.minTrackNumberDigits, U8Max).error)
  {
    var h := ParseUnsigned(m.maxPicHeight, U16Max);
    if h.Err? then Err(h.error) else
    var w := ParseUnsigned(m.maxPicWidth, U16Max);
    if w.Err? then Err(w.error) else
    var q := ParseUnsigned(m.picQuality, U8Max);
    if q.Err? then Err(q.error) else
    var t := ParseUnsigned(m.threads, UsizeMax);
    if t.Err? then Err(t.error) else
    var d := ParseUnsigned(m.minTrackNumberDigits, U8Max);
    if d.Err? then Err(d.error) else
    Ok(AppArgs(
      inputDirs := m.inputDirs,
      outputDir := m.outputDir,
      filenameTemplate := m.filenameTemplate,
      dryRun := m.dryRun == "y",
      inputExts := OptStringVec(m.inputExt),
      outputExt := Lower(m.outputExt),
      overwrite := m.overwrite == "y",
      ffmpegOpts := m.ffmpegOptions,
      maxPicWidth := w.value,
      maxPicHeight := h.value,
      picQuality := q.value,
      useEmbedPic := m.useEmbedPic == "y",
      ffmpegBin := m.ffmpegBin,
      ffprobeBin := m.ffprobeBin,
      threadsCount := t.value,
      coverNames := OptStringVec(m.coverName),
      coverExts := OptStringVec(m.coverExt),
      minTrackNumberDigits := d.value))
  }

  /** Matches whose numeric values all passed their validators always give
      settings, carrying the validated numbers, as long as the thread count
      is not written with a minus sign. */
  lemma ValidatedMatchesParse(m: Matches)
    requires ValidateNum(1, 5000, m.maxPicWidth).Ok? && ValidateNum(1, 5000, m.maxPicHeight).Ok?
    requires ValidateNum(1, 31, m.picQuality).Ok? && ValidateNum(1, 10, m.minTrackNumberDigits).Ok?
    requires ValidateNum(0, 1024, m.threads).Ok? && m.threads[0] != '-'
    ensures AppArgsFromMatches(m).Ok?
    ensures AppArgsFromMatches(m).value.maxPicWidth == ParseI64(m.maxPicWidth).value
    ensures AppArgsFromMatches(m).value.maxPicHeight == ParseI64(m.maxPicHeight).value
    ensures AppArgsFromMatches(m).value.picQuality == ParseI64(m.picQuality).value
    ensures AppArgsFromMatches(m).value.minTrackNumberDigits == ParseI64(m.minTrackNumberDigits).value
    ensures AppArgsFromMatches(m).value.threadsCount == ParseI64(m.threads).value
  {
    ValidatedParses(1, 5000, U16Max, m.maxPicWidth);
    ValidatedParses(1, 5000, U16Max, m.maxPicHeight);
    ValidatedParses(1, 31, U8Max, m.picQuality);
    ValidatedParses(1, 10, U8Max, m.minTrackNumberDigits);
    ValidatedParses(0, 1024, UsizeMax, m.threads);
  }
}
