/** Everything the converter learns from outside the program, as values:
    file contents, CUE sheets, directory listings, the transcoder's and the prober's
    reports, the template engine, the per-component file-name sanitiser
    and the number formatting. Each is a function of its arguments, so
    the same request always gets the same answer. */
module Externals {
  import opened Wrappers
  import Fs
  import Formats
  import Meta
  import Cue

  type Bytes = seq<bv8>

  /** What a finished transcoder run reports: its exit code (none when it
      was ended by a signal), its standard output and its standard error
      as text. */
  datatype ProcOutput = ProcOutput(code: Option<int>, stdout: Bytes, stderr: string)

  datatype World = World(
    /** `std::fs::read`, None on failure. */
    readFile: string -> Option<Bytes>,
    /** The CUE sheet at a path, read and parsed. */
    readSheet: string -> Cue.SheetSource,
    /** `read_dir` of a directory, entries in the order it yields them. */
    listDir: string -> Fs.Listing,
    /** The transcoder run for a picture: None when it could not be run. */
    runPicture: seq<string> -> Option<ProcOutput>,
    /** The transcoder run for an audio file, with the bytes fed to its
        standard input if any; Err when it could not be started or fed. */
    runAudio: (seq<string>, Option<Bytes>) -> Result<ProcOutput>,
    /** The probe of a file, decoded; Err when it could not be run or
        its report could not be decoded. */
    probe: string -> Result<Meta.Probe>,
    /** The canonical form of the file's own path. */
    canonicalize: string -> string,
    /** The canonical form of the directory holding a file. */
    inputDir: string -> Result<string>,
    /** Whether something exists at a path. */
    pathExists: string -> bool,
    /** Creating the directory that will hold a path, with its parents. */
    createDirs: string -> Result<()>,
    /** Rendering the file-name template with a record of tags. */
    render: (string, Meta.MetaTags) -> Result<string>,
    /** Sanitising one string for use as a file-name component. */
    filesafe: string -> string,
    /** A time in seconds printed with three decimals. */
    seconds: real -> string,
    /** The floating-point mapping of a picture quality onto a format's
        own quality scale. */
    normalizeQuality: (Formats.Format, nat) -> nat)
}
