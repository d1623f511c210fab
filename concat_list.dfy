/** The list file of ffmpeg's concat demuxer, as both merge helpers write it:
    one `file '<absolute path>'` line per input, in input order. */
module ConcatList {
  import opened Common
  import opened Host

  const LinePrefix := "file '"

  /** The line naming one input.  Quotes inside the path are not escaped. */
  function ListLine(p: Path): string {
    LinePrefix + p + "'"
  }

  /** The lines for `paths`, each resolved against the working directory. */
  function ListLines(cwd: Path, paths: seq<Path>): (lines: seq<string>)
    ensures |lines| == |paths|
  {
    seq(|paths|, k requires 0 <= k < |paths| => ListLine(Resolve(cwd, paths[k])))
  }

  /** The path a line names: what lies between the opening `file '` and the
      closing quote. */
  function LinePath(line: string): Option<Path> {
    if |line| >= |LinePrefix| + 1 && line[..|LinePrefix|] == LinePrefix && line[|line| - 1] == '\''
    then Some(line[|LinePrefix|..|line| - 1])
    else None
  }

  /** Every line of a list file names exactly the resolved input it was written
      for, at the same position. */
  lemma ListLinesNamePaths(cwd: Path, paths: seq<Path>)
    ensures forall k | 0 <= k < |paths| :: LinePath(ListLines(cwd, paths)[k]) == Some(Resolve(cwd, paths[k]))
  {
    forall k | 0 <= k < |paths|
      ensures LinePath(ListLines(cwd, paths)[k]) == Some(Resolve(cwd, paths[k]))
    {
      var line := ListLines(cwd, paths)[k];
      assert line == LinePrefix + Resolve(cwd, paths[k]) + "'";
      assert line[..|LinePrefix|] == LinePrefix;
      assert line[|LinePrefix|..|line| - 1] == Resolve(cwd, paths[k]);
    }
  }

  /** Opens `listFile` for writing and writes the line of each path in turn. */
  method WriteListFile(h: Host, listFile: Path, paths: seq<Path>)
    modifies h
    ensures h.files == old(h.files)[listFile := ListLines(h.cwd, paths)]
    ensures h.dirs == old(h.dirs) && h.log == old(h.log)
  {
    h.Create(listFile);
    var i := 0;
    while i < |paths|
      invariant 0 <= i <= |paths|
      invariant h.files == old(h.files)[listFile := ListLines(h.cwd, paths[..i])]
      invariant h.dirs == old(h.dirs) && h.log == old(h.log)
    {
      assert ListLines(h.cwd, paths[..i + 1]) == ListLines(h.cwd, paths[..i]) + [ListLine(Resolve(h.cwd, paths[i]))];
      h.AppendLine(listFile, ListLine(Resolve(h.cwd, paths[i])));
      i := i + 1;
    }
    assert paths[..i] == paths;
  }
}
