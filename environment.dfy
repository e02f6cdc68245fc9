/**
 * What the modelled code reads from outside the process, passed in as values:
 * the files on disk and the result of spawning the ffmpeg process.
 */
module Environment {

  /** The disk as the code sees it: a path is present exactly when `File.Exists` holds
      for it, and maps to the lines `File.ReadAllLinesAsync` would return. */
  datatype FileSystem = FileSystem(files: map<string, seq<string>>)
  {
    predicate Exists(path: string) {
      path in files
    }
  }

  /** `new Uri(path, UriKind.Absolute)` accepts a file path only when it is rooted: a
      Windows drive path (`C:\…` or `C:/…`) or a UNC path (`\\server\…`). A relative path
      such as `.\Audio\default.wav` makes it throw. */
  predicate IsAbsolutePath(path: string) {
    || (|path| >= 3 && IsDriveLetter(path[0]) && path[1] == ':' && (path[2] == '\\' || path[2] == '/'))
    || (|path| >= 2 && path[0] == '\\' && path[1] == '\\')
  }

  predicate IsDriveLetter(c: char) {
    'A' <= c <= 'Z' || 'a' <= c <= 'z'
  }

  /** The data rows of a CSV file: the lines after the header line, which the readers
      consume and discard unread. */
  function DataRows(lines: seq<string>): (rows: seq<string>)
    ensures |lines| > 0 ==> [lines[0]] + rows == lines
    ensures |lines| == 0 ==> rows == []
  {
    if |lines| == 0 then [] else lines[1..]
  }

  /** One run of the ffmpeg process: `Process.Start` returned null, something in the run
      threw, or the process exited and left `stderr` on its standard error stream. */
  datatype ProcessRun = StartFailed | Threw | Exited(stderr: string)
}
