/** Directory listings as values: what `read_dir` and `DirEntry::file_type`
    report, read once, so that the walks over them are plain recursion. */
module Fs {
  import opened Wrappers

  /** A directory that could not be listed, or its entries in the order
      `read_dir` yields them. */
  datatype Listing = Unreadable | Listing(entries: seq<DirEntry>)

  /** An entry whose read failed, or a named entry of some kind. */
  datatype DirEntry = BadEntry | DirEntry(name: string, kind: Kind)

  /** The file type of an entry: unreadable, a regular file (with the
      result of canonicalising its path), a directory (with its own
      listing), or anything else (symbolic links and special files, which
      `file_type` does not follow). */
  datatype Kind =
    | UnknownKind
    | RegularFile(canonical: Option<string>)
    | Directory(listing: Listing)
    | OtherKind
}
