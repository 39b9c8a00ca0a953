/**
 * The file system as the generator programs see it, reduced to values: a
 * directory listing is a sequence of entries, and each entry's path names a
 * directory, a file whose text can be read, or something that cannot be read
 * as text (missing permissions, invalid UTF-8, a vanished file).
 */
module Fs {
  datatype Node = Directory | File(content: string) | Unreadable

  /** One entry of `fs::read_dir` or `os.listdir`: its file name and what that name denotes. */
  datatype Entry = Entry(name: string, node: Node)

  predicate IsDir(e: Entry) {
    e.node.Directory?
  }

  /** The source files the Makefile generators compile, by extension. */
  datatype Kind = CFile | CppFile | RsFile | ZigFile

  function ExtensionOf(k: Kind): string {
    match k
    case CFile => "c"
    case CppFile => "cpp"
    case RsFile => "rs"
    case ZigFile => "zig"
  }
}
