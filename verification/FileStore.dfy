/** The files of the sandboxed workspace and the operations of the coding module on them.

    A file system is a map from canonical path to content. Text is a sequence of bytes,
    one `char` per byte of its UTF-8 encoding. Whether a path is inside the sandbox and
    whether the operating system accepts a read or a write is an input (`Faults`); an
    operation that fails leaves the files as they were. */
module FileStore {
  import opened Common

  type Path = string
  type Content = string
  type Files = map<Path, Content>

  datatype Error = AccessDenied | TooLarge | ReadFailed | NoMatch | WriteFailed

  datatype Result<+T> = Ok(value: T) | Err(error: Error)

  /** What goes wrong during one call. A tracked edit reads its file twice, hence two read flags. */
  datatype Faults = Faults(readDenied: bool, writeDenied: bool,
                           readFails: bool, rereadFails: bool, writeFails: bool)

  predicate Fits(files: Files, maxSize: nat, path: Path) {
    path in files ==> |files[path]| <= maxSize
  }

  function Read(files: Files, maxSize: nat, path: Path, f: Faults): Result<Content> {
    if f.readDenied then Err(AccessDenied)
    else if !Fits(files, maxSize, path) then Err(TooLarge)
    else if path !in files || f.readFails then Err(ReadFailed)
    else Ok(files[path])
  }

  /** Creating does not look at the old file: an existing one is overwritten. */
  function Create(files: Files, maxSize: nat, path: Path, content: Content, f: Faults): Result<Files> {
    if |content| > maxSize then Err(TooLarge)
    else if f.writeDenied then Err(AccessDenied)
    else if f.writeFails then Err(WriteFailed)
    else Ok(files[path := content])
  }

  function Write(files: Files, maxSize: nat, path: Path, content: Content, f: Faults): Result<Files> {
    if |content| > maxSize then Err(TooLarge)
    else if f.writeDenied then Err(AccessDenied)
    else if !Fits(files, maxSize, path) then Err(TooLarge)
    else if f.writeFails then Err(WriteFailed)
    else Ok(files[path := content])
  }

  /** The new content of the edited file; the caller stores it. */
  function Edit(files: Files, maxSize: nat, path: Path, oldText: Content, newText: Content, f: Faults)
    : Result<Content>
  {
    if f.writeDenied then Err(AccessDenied)
    else if !Fits(files, maxSize, path) then Err(TooLarge)
    else if path !in files || f.rereadFails then Err(ReadFailed)
    else match FindFrom(files[path], oldText, 0)
      case None => Err(NoMatch)
      case Some(at) =>
        var edited := ReplaceAt(files[path], oldText, newText, at);
        if |edited| > maxSize then Err(TooLarge)
        else if f.writeFails then Err(WriteFailed)
        else Ok(edited)
  }

  function Delete(files: Files, path: Path, f: Faults): Result<Files> {
    if f.writeDenied then Err(AccessDenied)
    else if path !in files || f.writeFails then Err(WriteFailed)
    else Ok(files - {path})
  }

  predicate OccursAt(text: Content, pattern: Content, i: int) {
    0 <= i <= i + |pattern| <= |text| && text[i..i + |pattern|] == pattern
  }

  predicate FirstAt(text: Content, pattern: Content, at: nat) {
    OccursAt(text, pattern, at) && forall i | 0 <= i < at :: !OccursAt(text, pattern, i)
  }

  /** `edited` is `text` with the first occurrence of `oldText` replaced. */
  ghost predicate Replaced(text: Content, oldText: Content, newText: Content, edited: Content) {
    exists at: nat ::
      FirstAt(text, oldText, at) && edited == text[..at] + newText + text[at + |oldText|..]
  }

  /** The first occurrence at or after `from`. The empty pattern occurs everywhere. */
  function FindFrom(text: Content, pattern: Content, from: nat): (at: Option<nat>)
    requires from <= |text|
    ensures at.Some? ==>
              from <= at.value && OccursAt(text, pattern, at.value) &&
              forall i | from <= i < at.value :: !OccursAt(text, pattern, i)
    ensures at.None? ==> forall i | from <= i :: !OccursAt(text, pattern, i)
    decreases |text| - from
  {
    if OccursAt(text, pattern, from) then Some(from)
    else if from == |text| then None
    else FindFrom(text, pattern, from + 1)
  }

  function ReplaceAt(text: Content, oldText: Content, newText: Content, at: nat): (r: Content)
    requires OccursAt(text, oldText, at)
    ensures |r| == |text| - |oldText| + |newText|
    ensures OccursAt(r, newText, at)
    ensures r[..at] == text[..at] && r[at + |newText|..] == text[at + |oldText|..]
  {
    text[..at] + newText + text[at + |oldText|..]
  }

  /** Replacing the new text by the old one at the same place gives back the original. */
  lemma ReplaceBack(text: Content, oldText: Content, newText: Content, at: nat)
    requires OccursAt(text, oldText, at)
    ensures ReplaceAt(ReplaceAt(text, oldText, newText, at), newText, oldText, at) == text
  {
    assert text == text[..at] + text[at..at + |oldText|] + text[at + |oldText|..];
  }
}
