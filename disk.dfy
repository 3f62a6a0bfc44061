/**
 * The file system as the view models observe it, as a value: which
 * directories exist and what `Directory.GetFiles` lists for each, which files
 * exist and what they hold, and the outcomes of calls that can fail for
 * reasons outside the program (a file held by another process, a path
 * `Path.GetFullPath` rejects, a directory that cannot be created).
 */
module Disk {
  import opened Wrappers
  import opened Documents

  /** A file's content: a word-processing package, whose body may be missing, or anything else. */
  datatype FileContent = Package(body: Option<Body>) | NotAPackage

  datatype FileSystem = FileSystem(
    dirs: map<string, seq<string>>,    // each existing directory, with the full paths of its files in listing order
    files: map<string, FileContent>,   // each existing file
    locked: set<string>,               // files another process holds open exclusively
    malformed: map<string, string>,    // paths Path.GetFullPath rejects, with the exception's message
    uncreatable: map<string, string>,  // directories whose creation throws, with the exception's message
    uncopyable: set<string>,           // targets to which `File.Copy` throws
    unsavable: set<string>)            // files whose reopening for writing or whose save throws

  predicate DirectoryExists(fs: FileSystem, dir: string) {
    dir in fs.dirs
  }

  predicate FileExists(fs: FileSystem, file: string) {
    file in fs.files
  }

  /**
   * The body of the package at `path`, as `WordprocessingDocument.Open` and
   * the chain down to its body see it; None when opening throws (no such
   * file, locked, not a package) or when the package has no body.
   */
  function OpenBody(fs: FileSystem, path: string): (r: Option<Body>)
    ensures r.Some? ==> FileExists(fs, path) && path !in fs.locked && fs.files[path] == Package(r)
    ensures FileExists(fs, path) && path !in fs.locked && fs.files[path].Package? ==> r == fs.files[path].body
  {
    if path in fs.files && path !in fs.locked && fs.files[path].Package? then fs.files[path].body else None
  }

  /** `Directory.CreateDirectory` throws only for a directory that does not exist yet. */
  predicate CreationFails(fs: FileSystem, dir: string) {
    dir !in fs.dirs && dir in fs.uncreatable
  }

  /** `File.Copy` onto `target` throws (a full disk, a denied write). */
  predicate CopyFails(fs: FileSystem, target: string) {
    target in fs.uncopyable
  }

  /** Reopening `file` for writing, or saving it, throws. */
  predicate SaveFails(fs: FileSystem, file: string) {
    file in fs.unsavable
  }

  /** The directory exists afterwards; an existing one is left as it is. */
  function CreateDirectory(fs: FileSystem, dir: string): (r: FileSystem)
    requires !CreationFails(fs, dir)
    ensures DirectoryExists(r, dir)
    ensures r.files == fs.files && r.locked == fs.locked && r.malformed == fs.malformed
    ensures r.uncreatable == fs.uncreatable && r.uncopyable == fs.uncopyable && r.unsavable == fs.unsavable
    ensures forall d :: d in fs.dirs ==> d in r.dirs && r.dirs[d] == fs.dirs[d]
    ensures dir !in fs.dirs ==> r.dirs[dir] == []
    ensures forall d :: d in r.dirs && d != dir ==> d in fs.dirs
  {
    if dir in fs.dirs then fs else fs.(dirs := fs.dirs[dir := []])
  }

  /** A listing with `file` added at the end unless it is listed already. */
  function AddEntry(listing: seq<string>, file: string): (r: seq<string>)
    ensures file in r
    ensures forall f :: f in listing ==> f in r
    ensures forall f :: f in r ==> f in listing || f == file
  {
    if file in listing then listing else listing + [file]
  }

  /** Writes `content` to `file` inside the existing directory `dir`, replacing what was there. */
  function WriteFile(fs: FileSystem, dir: string, file: string, content: FileContent): (r: FileSystem)
    requires DirectoryExists(fs, dir)
    ensures FileExists(r, file) && r.files[file] == content && r.files == fs.files[file := content]
    ensures forall f :: f != file ==> (f in r.files <==> f in fs.files)
    ensures forall f :: f in fs.files && f != file ==> r.files[f] == fs.files[f]
    ensures r.dirs.Keys == fs.dirs.Keys && r.dirs[dir] == AddEntry(fs.dirs[dir], file)
    ensures forall d :: d in fs.dirs && d != dir ==> r.dirs[d] == fs.dirs[d]
    ensures r.locked == fs.locked && r.malformed == fs.malformed && r.uncreatable == fs.uncreatable
    ensures r.uncopyable == fs.uncopyable && r.unsavable == fs.unsavable
  {
    fs.(files := fs.files[file := content], dirs := fs.dirs[dir := AddEntry(fs.dirs[dir], file)])
  }

  /** Writing a file twice leaves what the second write put there. */
  lemma WriteFileTwice(fs: FileSystem, dir: string, file: string, first: FileContent, second: FileContent)
    requires DirectoryExists(fs, dir)
    ensures WriteFile(WriteFile(fs, dir, file, first), dir, file, second) == WriteFile(fs, dir, file, second)
  {
    var once := WriteFile(fs, dir, file, first);
    assert once.dirs[dir] == AddEntry(fs.dirs[dir], file);
    assert AddEntry(once.dirs[dir], file) == once.dirs[dir];
    assert once.files[file := second] == fs.files[file := second];
    assert once.dirs[dir := AddEntry(once.dirs[dir], file)] == fs.dirs[dir := AddEntry(fs.dirs[dir], file)];
  }
}
