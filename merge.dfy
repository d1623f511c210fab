/** `merge.py`: the standalone merge helper.  It checks its inputs in order
    (at least two of them, then each one on disk), writes the concat list file
    under `downloads`, runs one re-encoding concat command, and removes the
    list file whatever the outcome. */
module Merge {
  import opened Common
  import opened Text
  import opened Host
  import opened ConcatList

  /** `FFMPEG_BIN` */
  function MergeBin(env: Env): string {
    GetEnvOr(env, "FFMPEG_BIN", "ffmpeg")
  }

  /** `TMP_DIR` of this file: a fixed relative directory. */
  const ListDir := "downloads"

  const NeedTwo := "Need at least two videos to merge."

  function NotFound(p: Path): Error {
    FileNotFoundError("Input file not found: " + p)
  }

  /** The position of the first path not present on disk, if any. */
  function FirstAbsent(present: set<Path>, paths: seq<Path>): (r: Option<nat>)
    ensures r.None? <==> forall k | 0 <= k < |paths| :: paths[k] in present
    ensures r.Some? ==> r.value < |paths| && paths[r.value] !in present
    ensures r.Some? ==> forall k | 0 <= k < r.value :: paths[k] in present
  {
    if paths == [] then None
    else if paths[0] !in present then Some(0)
    else match FirstAbsent(present, paths[1..])
      case None => None
      case Some(i) => Some(i + 1)
  }

  /** What exists on the host: its files and its directories. */
  function Present(files: map<Path, seq<string>>, dirs: set<Path>): set<Path> {
    files.Keys + dirs
  }

  /** The existence loop: each input is checked in order and the first one
      missing stops the loop. */
  method FindAbsent(h: Host, paths: seq<Path>) returns (r: Option<nat>)
    ensures r == FirstAbsent(Present(h.files, h.dirs), paths)
  {
    var i := 0;
    while i < |paths|
      invariant 0 <= i <= |paths|
      invariant forall k | 0 <= k < i :: h.Exists(paths[k])
    {
      if !h.Exists(paths[i]) {
        FirstAbsentAt(Present(h.files, h.dirs), paths, i);
        return Some(i);
      }
      i := i + 1;
    }
    return None;
  }

  /** The first absent path is the one found by scanning from the front. */
  lemma {:induction false} FirstAbsentAt(present: set<Path>, paths: seq<Path>, i: nat)
    requires i < |paths| && paths[i] !in present
    requires forall k | 0 <= k < i :: paths[k] in present
    ensures FirstAbsent(present, paths) == Some(i)
  {
    if i > 0 {
      FirstAbsentAt(present, paths[1..], i - 1);
    }
  }

  /** `downloads/files_<milliseconds>.txt`, named after the event loop's clock. */
  function ListFileName(clockMillis: int): Path {
    PathJoin(ListDir, "files_" + IntToString(clockMillis) + ".txt")
  }

  function MergeCmd(bin: string, listFile: Path, output: Path, crf: int): Cmd {
    [bin, "-y", "-f", "concat", "-safe", "0", "-i", listFile,
     "-c:v", "libx264", "-preset", "veryfast", "-crf", IntToString(crf),
     "-c:a", "aac", "-b:a", "192k",
     output]
  }

  /** `merge_videos(input_paths, output_path, crf)`; `clockMillis` is the
      event loop's clock in milliseconds when the list file is named. */
  method MergeVideos(h: Host, env: Env, inputs: seq<Path>, output: Path, crf: int, clockMillis: int) returns (r: Result<Path>)
    modifies h
    ensures |inputs| < 2 ==> r == Err(ValueError(NeedTwo))
    ensures |inputs| >= 2 && FirstAbsent(Present(old(h.files), old(h.dirs)), inputs).Some? ==>
      r == Err(NotFound(inputs[FirstAbsent(Present(old(h.files), old(h.dirs)), inputs).value]))
    ensures (|inputs| < 2 || FirstAbsent(Present(old(h.files), old(h.dirs)), inputs).Some?) ==>
      h.files == old(h.files) && h.dirs == old(h.dirs) && h.log == old(h.log)
    ensures |inputs| >= 2 && FirstAbsent(Present(old(h.files), old(h.dirs)), inputs).None? ==>
      && h.dirs == old(h.dirs) + {ListDir}
      && h.files == old(h.files) - {ListFileName(clockMillis)}
      && h.log == old(h.log) + [Exec(MergeCmd(MergeBin(env), ListFileName(clockMillis), output, crf),
                                     old(h.files)[ListFileName(clockMillis) := ListLines(h.cwd, inputs)], r.Ok?)]
      && r == Finished(h.log[|h.log| - 1], Resolve(h.cwd, output))
  {
    if |inputs| < 2 {
      return Err(ValueError(NeedTwo));
    }
    var absent := FindAbsent(h, inputs);
    if absent.Some? {
      return Err(NotFound(inputs[absent.value]));
    }
    h.MakeDir(ListDir);
    var listFile := ListFileName(clockMillis);
    WriteListFile(h, listFile, inputs);
    var ok := h.Run(MergeCmd(MergeBin(env), listFile, output, crf));
    r := Finished(h.log[|h.log| - 1], Resolve(h.cwd, output));
    h.Unlink(listFile);
  }
}
