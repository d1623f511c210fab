/** The world outside the Python code: the file system as far as the bot's own
    code touches it, and the ffmpeg processes it starts.  A run of ffmpeg is an
    oracle: its success or failure is not known in advance, and the log records
    every command in the order it was started, what it could see on disk, and
    how it ended. */
module Host {
  import opened Common

  /** One ffmpeg process: its argument vector, the files present while it ran
      (with their lines), and whether it exited with status 0 within the timeout. */
  datatype Exec = Exec(cmd: Cmd, seen: map<Path, seq<string>>, ok: bool)

  /** What an operation returns after its last ffmpeg run: the output path
      when that run succeeded, the `RuntimeError` of `_run_cmd` otherwise. */
  function Finished(run: Exec, output: Path): Result<Path> {
    if run.ok then Ok(output) else Err(RuntimeError(CommandFailed))
  }

  /** The message of `_run_cmd`'s `RuntimeError`. */
  const CommandFailed := "ffmpeg command failed"

  /** `Path(p).resolve()` against the working directory `cwd`; normalisation of
      `.`/`..` and symbolic links is not modelled. */
  function Resolve(cwd: Path, p: Path): Path {
    if |p| > 0 && p[0] == '/' then p else PathJoin(cwd, p)
  }

  /** The index of the last `c` in `s`, or -1 when there is none (`str.rfind`). */
  function LastIndexOf(s: string, c: char): (r: int)
    ensures -1 <= r < |s|
    ensures r >= 0 ==> s[r] == c && c !in s[r + 1..]
    ensures r == -1 ==> c !in s
  {
    if s == [] then -1
    else if s[|s| - 1] == c then |s| - 1
    else
      var r := LastIndexOf(s[..|s| - 1], c);
      assert s == s[..|s| - 1] + [s[|s| - 1]];
      r
  }

  /** `Path(p).name`: the last component.  Trailing separators are not stripped. */
  function BaseName(p: Path): (name: string)
    ensures '/' !in name
    ensures |name| <= |p| && name == p[|p| - |name|..]
  {
    p[LastIndexOf(p, '/') + 1..]
  }

  /** `Path(p).stem`: the last component without its final suffix; a leading
      dot or a trailing dot does not start a suffix. */
  function Stem(p: Path): (stem: string)
    ensures '/' !in stem
    ensures |stem| <= |BaseName(p)| && stem == BaseName(p)[..|stem|]
    ensures stem == BaseName(p) || BaseName(p)[|stem|] == '.'
    // the cut is at the last dot, and never at the first or the last character
    ensures stem != BaseName(p) ==>
      0 < |stem| < |BaseName(p)| - 1 && '.' !in BaseName(p)[|stem| + 1..]
    // the name is kept whole only when no dot past its first character starts a suffix
    ensures stem == BaseName(p) && BaseName(p) != "" ==>
      '.' !in BaseName(p)[1..] || BaseName(p)[|BaseName(p)| - 1] == '.'
  {
    var name := BaseName(p);
    var i := LastIndexOf(name, '.');
    if 0 < i < |name| - 1 then name[..i] else name
  }

  class Host {
    /** Regular files, each with its lines. */
    var files: map<Path, seq<string>>
    /** Directories. */
    var dirs: set<Path>
    /** Every ffmpeg process started so far. */
    var log: seq<Exec>
    /** The working directory and the process id of the bot. */
    const cwd: Path
    const pid: nat

    constructor (cwd: Path, pid: nat, files: map<Path, seq<string>>, dirs: set<Path>)
      ensures this.cwd == cwd && this.pid == pid
      ensures this.files == files && this.dirs == dirs && log == []
    {
      this.cwd := cwd;
      this.pid := pid;
      this.files := files;
      this.dirs := dirs;
      log := [];
    }

    /** `p.exists()` */
    predicate Exists(p: Path)
      reads this
    {
      p in files || p in dirs
    }

    /** `_run_cmd(cmd)`: start one process and wait for it; `ok` is false when it
        exits with a non-zero status or is killed at the timeout. */
    method Run(cmd: Cmd) returns (ok: bool)
      modifies this
      ensures log == old(log) + [Exec(cmd, files, ok)]
      ensures files == old(files) && dirs == old(dirs)
    {
      ok :| true;
      log := log + [Exec(cmd, files, ok)];
    }

    /** `open(p, "w")` followed by writing nothing: creates or truncates `p`. */
    method Create(p: Path)
      modifies this
      ensures files == old(files)[p := []]
      ensures dirs == old(dirs) && log == old(log)
    {
      files := files[p := []];
    }

    /** `f.write(line + "\n")` on a file opened by `Create`. */
    method AppendLine(p: Path, line: string)
      requires p in files
      modifies this
      ensures files == old(files)[p := old(files)[p] + [line]]
      ensures dirs == old(dirs) && log == old(log)
    {
      files := files[p := files[p] + [line]];
    }

    /** `p.unlink()` inside `try ... except: pass`: a missing file is ignored. */
    method Unlink(p: Path)
      modifies this
      ensures files == old(files) - {p}
      ensures dirs == old(dirs) && log == old(log)
    {
      files := files - {p};
    }

    /** `p.mkdir(parents=True, exist_ok=True)` */
    method MakeDir(p: Path)
      modifies this
      ensures dirs == old(dirs) + {p}
      ensures files == old(files) && log == old(log)
    {
      dirs := dirs + {p};
    }
  }
}
