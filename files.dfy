/**
 * The slice of the file system the data writers touch: paths, directories
 * that `mkdirs` creates, and the state of one buffered output handle
 * (a `PrintWriter` over a `BufferedWriter` over a `FileWriter`).
 */
module Files {

  /** A path as its list of components; `[]` is the file-system root. */
  type Path = seq<string>

  /** The directory a file lives in (`File.getParentFile`). */
  function Parent(file: Path): Path
    requires file != []
  {
    file[..|file| - 1]
  }

  /** `file` names an entry directly inside `dir`. */
  predicate InDirectory(file: Path, dir: Path)
  {
    file != [] && Parent(file) == dir
  }

  /** The directories that exist after `mkdirs(dir)`: `dir` and every ancestor of it. */
  function WithAncestors(dir: Path): set<Path>
  {
    set k | 0 <= k <= |dir| :: dir[..k]
  }

  /**
   * One output handle. `text` is everything printed to it, `flushed` how much
   * of that is known to have reached the file, `closed` whether it was closed.
   */
  datatype Handle = Handle(file: Path, text: string, flushed: nat, closed: bool)
  {
    ghost predicate Valid()
    {
      flushed <= |text|
    }
  }

  /** A handle freshly opened on `file` (the file is created or truncated). */
  function OpenHandle(file: Path): Handle
  {
    Handle(file, "", 0, false)
  }

  /** `print(s)`: the text grows at its end; nothing is forced to the file. */
  function Printed(h: Handle, s: string): Handle
  {
    h.(text := h.text + s)
  }

  /** `flush()`: everything printed so far reaches the file. */
  function Flushed(h: Handle): Handle
  {
    h.(flushed := |h.text|)
  }

  /** `close()`: flushes what is left in the buffer, then closes. */
  function Closed(h: Handle): Handle
  {
    Flushed(h).(closed := true)
  }
}
