/** The handlers of `main.py` and the per-user session state they share:
    `USER_STATE` maps a user id to the record of the action that user picked
    from the menu.  Chat replies, downloads and uploads are not modelled: a
    handler's answer is a `Reply`, a download is its outcome passed in, and
    the random part of a job directory's name is a parameter. */
module Bot {
  import opened Common
  import opened Text
  import opened Host
  import opened Params
  import Speed
  import FfmpegTools
  import ConcatList

  /** `TMP_ROOT`: the directory the job directories are made in. */
  function TmpRoot(env: Env): Path {
    GetEnvOr(env, "TMP_DIR", "downloads")
  }

  // ---------------------------------------------------------------------------
  // Actions and the menu buttons that select them

  datatype Action =
    | Compress | Watermark | MovingWm | Trim | Resize | SpeedChange | Rotate | Thumb
    | AudioExtract | AudioReplace | MergeCollect

  /** The callback data of the button that selects each action. */
  function CallbackData(a: Action): string {
    match a
    case Compress => "video_compress"
    case Watermark => "video_watermark"
    case MovingWm => "video_moving_wm"
    case Trim => "video_trim"
    case Resize => "video_resize"
    case SpeedChange => "video_speed"
    case Rotate => "video_rotate"
    case Thumb => "video_thumb"
    case AudioExtract => "audio_extract"
    case AudioReplace => "audio_replace"
    case MergeCollect => "misc_merge"
  }

  /** The action a callback selects, if any: the `elif` chain of `cb_handler`. */
  function ActionFor(data: string): Option<Action> {
    if data == "video_compress" then Some(Compress)
    else if data == "video_watermark" then Some(Watermark)
    else if data == "video_moving_wm" then Some(MovingWm)
    else if data == "video_trim" then Some(Trim)
    else if data == "video_resize" then Some(Resize)
    else if data == "video_speed" then Some(SpeedChange)
    else if data == "video_rotate" then Some(Rotate)
    else if data == "video_thumb" then Some(Thumb)
    else if data == "audio_extract" then Some(AudioExtract)
    else if data == "audio_replace" then Some(AudioReplace)
    else if data == "misc_merge" then Some(MergeCollect)
    else None
  }

  /** The callbacks that only move between menus. */
  predicate IsMenu(data: string) {
    data == "menu_video" || data == "menu_audio" || data == "menu_misc" || data == "menu_back"
  }

  /** Every action's button selects that action. */
  lemma ActionForData(a: Action)
    ensures ActionFor(CallbackData(a)) == Some(a)
  {
  }

  /** A callback selects an action only when it is that action's button. */
  lemma DataForAction(data: string)
    ensures ActionFor(data).Some? ==> CallbackData(ActionFor(data).value) == data
  {
  }

  /** Menu navigation selects no action. */
  lemma MenuSelectsNothing(data: string)
    requires IsMenu(data)
    ensures ActionFor(data) == None
  {
    assert data[0] == 'm' && |data| > 1;
  }

  // ---------------------------------------------------------------------------
  // Session records

  /** A `USER_STATE` record: the action, the downloads collected for a merge,
      and the stored target video of an audio replacement. */
  datatype Session = Session(action: Action, collected: seq<Path>, audioTarget: Option<Path>)

  /** The record a menu button stores: the action alone (with an empty
      `collected` list for a merge). */
  function Fresh(a: Action): Session {
    Session(a, [], None)
  }

  /** Only a merge collects downloads and only an audio replacement stores a
      target. */
  predicate WellFormed(s: Session) {
    && (s.collected != [] ==> s.action == MergeCollect)
    && (s.audioTarget.Some? ==> s.action == AudioReplace)
  }

  /** What the command replies to. */
  datatype Replied = NoReply | Video | Document | OtherMessage

  predicate IsVideoOrDocument(r: Replied) {
    r == Video || r == Document
  }

  /** A handler's answer to the user. */
  datatype Reply =
    | Navigated | Selected(action: Action) | UnknownAction
    | NoActionSelected | UseMergeCommands | NeedVideo | UsageText | TargetSaved
    | Sent(file: Path) | Failed(error: Error)
    | NoMergeSession | NeedTwoVideos | Added(total: nat)

  // ---------------------------------------------------------------------------
  // The single-step actions of `/send`

  /** An action `/send` finishes in one step. */
  predicate SingleStep(a: Action) {
    a != AudioReplace && a != MergeCollect
  }

  /** A single-step action with its arguments read. */
  datatype Job =
    | CompressJob(crf: int)
    | WatermarkJob(wm: WatermarkArgs)
    | MovingJob(moving: MovingArgs)
    | TrimJob(start: string, end: string)
    | ResizeJob(height: int)
    | SpeedJob(factor: Speed.PyFloat)
    | RotateJob(degrees: int)
    | ThumbJob
    | ExtractJob

  function JobAction(job: Job): Action {
    match job
    case CompressJob(_) => Compress
    case WatermarkJob(_) => Watermark
    case MovingJob(_) => MovingWm
    case TrimJob(_, _) => Trim
    case ResizeJob(_) => Resize
    case SpeedJob(_) => SpeedChange
    case RotateJob(_) => Rotate
    case ThumbJob => Thumb
    case ExtractJob => AudioExtract
  }

  /** The file each action writes in the job directory. */
  function OutputName(job: Job): string {
    match job
    case CompressJob(_) => "compressed.mp4"
    case WatermarkJob(_) => "watermarked.mp4"
    case MovingJob(_) => "moving_wm.mp4"
    case TrimJob(_, _) => "trimmed.mp4"
    case ResizeJob(_) => "resized.mp4"
    case SpeedJob(_) => "speed.mp4"
    case RotateJob(_) => "rotated.mp4"
    case ThumbJob => "thumb.jpg"
    case ExtractJob => "audio.mp3"
  }

  /** The frame `extract_thumbnail` is asked for. */
  const ThumbAt := "00:00:03"

  /** How `/send` reads its text for each single-step action. */
  function Plan(a: Action, msg: string): (r: Parsed<Job>)
    requires SingleStep(a)
  {
    match a
    case Compress =>
      (match ParseCrf(msg) case Usage => Usage case Bad(e) => Bad(e) case Args(c) => Args(CompressJob(c)))
    case Watermark =>
      (match ParseWatermark(msg) case Usage => Usage case Bad(e) => Bad(e) case Args(w) => Args(WatermarkJob(w)))
    case MovingWm =>
      (match ParseMoving(msg) case Usage => Usage case Bad(e) => Bad(e) case Args(m) => Args(MovingJob(m)))
    case Trim =>
      (match ParseTrim(msg) case Usage => Usage case Bad(e) => Bad(e) case Args(se) => Args(TrimJob(se.0, se.1)))
    case Resize =>
      (match ParseIntArg(msg) case Usage => Usage case Bad(e) => Bad(e) case Args(h) => Args(ResizeJob(h)))
    case SpeedChange =>
      (match ParseFactor(msg) case Usage => Usage case Bad(e) => Bad(e) case Args(f) => Args(SpeedJob(f)))
    case Rotate =>
      (match ParseIntArg(msg) case Usage => Usage case Bad(e) => Bad(e) case Args(d) => Args(RotateJob(d)))
    case Thumb => Args(ThumbJob)
    case AudioExtract => Args(ExtractJob)
  }

  /** Which actions can refuse their text: the thumbnail and audio
      extraction take no arguments and always run, compress falls back to its
      default crf instead of a usage reply, and the two watermarks never fail
      to parse. */
  lemma PlanRefusals(a: Action, msg: string)
    requires SingleStep(a)
    ensures a == Thumb || a == AudioExtract ==> Plan(a, msg).Args?
    ensures a == Compress ==> !Plan(a, msg).Usage?
    ensures a == Watermark || a == MovingWm ==> !Plan(a, msg).Bad?
  {
  }

  /** `/send` with no argument compresses at crf 23. */
  lemma PlanCompressDefault(cmd: string)
    requires IsWord(cmd)
    ensures Plan(Compress, cmd) == Args(CompressJob(DefaultCrf))
  {
    assert Unwords([cmd]) == cmd;
    WordsOfUnwords([cmd]);
  }

  /** The one command of the jobs that run a single fixed command. */
  function JobCmd(env: Env, job: Job, input: Path, output: Path): Option<Cmd> {
    var bin := FfmpegTools.FfmpegBin(env);
    match job
    case CompressJob(crf) => Some(FfmpegTools.CompressCmd(bin, input, output, crf, FfmpegTools.DefaultPreset))
    case WatermarkJob(wm) =>
      Some(FfmpegTools.DrawtextCmd(bin, input, output,
             FfmpegTools.StaticOptions(wm.text, wm.color, wm.size, wm.position, GetEnv(env, "FONT_FILE"))))
    case ResizeJob(height) => Some(FfmpegTools.ResizeCmd(bin, input, output, height))
    case ThumbJob => Some(FfmpegTools.ThumbnailCmd(bin, input, output, ThumbAt))
    case ExtractJob => Some(FfmpegTools.ExtractAudioCmd(bin, input, output))
    case _ => None
  }

  /** The jobs whose operation runs one command chosen before it runs. */
  predicate FixedJob(job: Job) {
    job.CompressJob? || job.WatermarkJob? || job.ResizeJob? || job.ThumbJob? || job.ExtractJob?
  }

  lemma FixedJobCmd(env: Env, job: Job, input: Path, output: Path)
    ensures JobCmd(env, job, input, output).Some? <==> FixedJob(job)
  {
  }

  /** The error a job stops with before running ffmpeg: `WM_FONT_SIZE` that
      is not an integer for the moving watermark, an angle other than 90, 180
      and 270, and a speed factor that is not a positive finite number. */
  function JobRefusal(env: Env, job: Job): Option<Error> {
    match job
    case MovingJob(_) =>
      if FfmpegTools.MovingFontSize(env).Err? then Some(FfmpegTools.MovingFontSize(env).error) else None
    case RotateJob(degrees) =>
      if FfmpegTools.RotateFilter(degrees).Err? then Some(ValueError(FfmpegTools.BadDegrees)) else None
    case SpeedJob(f) =>
      if f.Finite? && f.r > 0.0 then None
      else if f == Speed.PosInf || f == Speed.NaN then Some(ValueError(Speed.NotFinite))
      else Some(ValueError(Speed.NotPositive))
    case _ => None
  }

  /** The moving watermark's command, once its font size is read. */
  function MovingCmd(env: Env, m: MovingArgs, input: Path, output: Path, size: int): Cmd {
    FfmpegTools.DrawtextCmd(FfmpegTools.FfmpegBin(env), input, output,
      FfmpegTools.MovingOptions(m.text, GetEnvOr(env, "WM_COLOR", "white"), size, m.mode, GetEnv(env, "FONT_FILE")))
  }

  /** What running a job leaves in the log: nothing when the job is refused,
      otherwise one or two new runs after the old ones; the single command of
      the fixed jobs, of the moving watermark and of an accepted rotation,
      run on the files as they are; for trimming, the stream copy first and
      the re-encode after it exactly when the copy failed; for the speed
      change, one run whose filter graph holds a valid atempo chain. */
  ghost predicate JobRan(env: Env, job: Job, input: Path, output: Path, show: real -> string,
                         seen: map<Path, seq<string>>, before: seq<Exec>, after: seq<Exec>) {
    && |before| <= |after| <= |before| + 2 && after[..|before|] == before
    && (JobRefusal(env, job).Some? <==> after == before)
    && (JobCmd(env, job, input, output).Some? ==>
          SingleRun(JobCmd(env, job, input, output).value, seen, before, after))
    && (job.MovingJob? && FfmpegTools.MovingFontSize(env).Ok? ==>
          SingleRun(MovingCmd(env, job.moving, input, output, FfmpegTools.MovingFontSize(env).value), seen, before, after))
    && (job.RotateJob? && FfmpegTools.RotateFilter(job.degrees).Ok? ==>
          SingleRun(FfmpegTools.RotateCmd(FfmpegTools.FfmpegBin(env), input, output,
                                          FfmpegTools.RotateFilter(job.degrees).value), seen, before, after))
    && (job.TrimJob? ==>
          FallbackRan(FfmpegTools.TrimCopyCmd(FfmpegTools.FfmpegBin(env), input, output, job.start, job.end),
                      FfmpegTools.TrimEncodeCmd(FfmpegTools.FfmpegBin(env), input, output, job.start, job.end),
                      before, after))
    && (job.SpeedJob? && job.factor.Finite? && job.factor.r > 0.0 ==>
          |after| == |before| + 1 && after[|before|].seen == seen
          && FfmpegTools.SpeedRun(after[|before|], FfmpegTools.FfmpegBin(env), input, output, job.factor.r, show))
  }

  /** Exactly one new run, of `cmd` on the files `seen`. */
  predicate SingleRun(cmd: Cmd, seen: map<Path, seq<string>>, before: seq<Exec>, after: seq<Exec>) {
    |after| == |before| + 1 && after[|before|].cmd == cmd && after[|before|].seen == seen
  }

  /** `first` is run; `second` is run after it exactly when `first` failed. */
  predicate FallbackRan(first: Cmd, second: Cmd, before: seq<Exec>, after: seq<Exec>) {
    && |before| < |after| <= |before| + 2 && after[..|before|] == before
    && after[|before|].cmd == first
    && (after[|before|].ok <==> |after| == |before| + 1)
    && (|after| == |before| + 2 ==> after[|before| + 1].cmd == second)
  }

  /** How a job ends: with its refusal, or else with `output` exactly when
      the last run succeeded. */
  function JobResult(env: Env, job: Job, output: Path, after: seq<Exec>): Result<Path>
    requires JobRefusal(env, job).None? ==> after != []
  {
    match JobRefusal(env, job)
    case Some(e) => Err(e)
    case None => Finished(after[|after| - 1], output)
  }

  /** Runs the ffmpeg operation of a job on the downloaded input, writing
      `output`. */
  method RunJob(h: Host, env: Env, job: Job, input: Path, output: Path, show: real -> string) returns (r: Result<Path>)
    modifies h
    ensures h.files == old(h.files) && h.dirs == old(h.dirs)
    ensures JobRan(env, job, input, output, show, h.files, old(h.log), h.log)
    ensures r == JobResult(env, job, output, h.log)
  {
    FixedJobCmd(env, job, input, output);
    if FixedJob(job) {
      r := RunFixedJob(h, env, job, input, output);
      FixedRan(env, job, input, output, show, h.files, old(h.log), h.log);
      return;
    }
    match job
    case MovingJob(m) =>
      r := FfmpegTools.AddMovingWatermark(h, env, input, output, m.text, m.mode);
      MovingRan(env, m, input, output, show, r, h.files, old(h.log), h.log);
    case TrimJob(start, end) =>
      r := FfmpegTools.TrimVideo(h, env, input, output, start, end);
      TrimRan(env, start, end, input, output, show, r, h.files, old(h.log), h.log);
    case SpeedJob(factor) =>
      r := FfmpegTools.ChangeSpeed(h, env, input, output, factor, show);
      SpeedRan(env, factor, input, output, show, r, h.files, old(h.log), h.log);
    case RotateJob(degrees) =>
      r := FfmpegTools.RotateVideo(h, env, input, output, degrees);
      RotateRan(env, degrees, input, output, show, r, h.files, old(h.log), h.log);
  }

  lemma FixedRan(env: Env, job: Job, input: Path, output: Path, show: real -> string,
                 seen: map<Path, seq<string>>, before: seq<Exec>, after: seq<Exec>)
    requires JobCmd(env, job, input, output).Some?
    requires |after| == |before| + 1 && after[..|before|] == before
    requires after[|before|].cmd == JobCmd(env, job, input, output).value && after[|before|].seen == seen
    ensures JobRan(env, job, input, output, show, seen, before, after)
  {
  }

  lemma MovingRan(env: Env, m: MovingArgs, input: Path, output: Path, show: real -> string, r: Result<Path>,
                  seen: map<Path, seq<string>>, before: seq<Exec>, after: seq<Exec>)
    requires FfmpegTools.MovingFontSize(env).Err? ==> r == Err(FfmpegTools.MovingFontSize(env).error) && after == before
    requires FfmpegTools.MovingFontSize(env).Ok? ==>
      after == before + [Exec(MovingCmd(env, m, input, output, FfmpegTools.MovingFontSize(env).value), seen, r.Ok?)]
      && r == Finished(after[|after| - 1], output)
    ensures JobRan(env, MovingJob(m), input, output, show, seen, before, after)
    ensures r == JobResult(env, MovingJob(m), output, after)
  {
  }

  lemma TrimRan(env: Env, start: string, end: string, input: Path, output: Path, show: real -> string, r: Result<Path>,
                seen: map<Path, seq<string>>, before: seq<Exec>, after: seq<Exec>)
    requires FallbackRan(FfmpegTools.TrimCopyCmd(FfmpegTools.FfmpegBin(env), input, output, start, end),
                         FfmpegTools.TrimEncodeCmd(FfmpegTools.FfmpegBin(env), input, output, start, end),
                         before, after)
    requires r == Finished(after[|after| - 1], output)
    ensures JobRan(env, TrimJob(start, end), input, output, show, seen, before, after)
    ensures r == JobResult(env, TrimJob(start, end), output, after)
  {
  }

  lemma SpeedRan(env: Env, factor: Speed.PyFloat, input: Path, output: Path, show: real -> string, r: Result<Path>,
                 seen: map<Path, seq<string>>, before: seq<Exec>, after: seq<Exec>)
    requires !(factor.Finite? && factor.r > 0.0) ==> after == before
    requires (factor == Speed.NegInf || (factor.Finite? && factor.r <= 0.0)) ==> r == Err(ValueError(Speed.NotPositive))
    requires (factor == Speed.PosInf || factor == Speed.NaN) ==> r == Err(ValueError(Speed.NotFinite))
    requires factor.Finite? && factor.r > 0.0 ==>
      && |after| == |before| + 1 && after[..|before|] == before
      && after[|before|].seen == seen
      && FfmpegTools.SpeedRun(after[|before|], FfmpegTools.FfmpegBin(env), input, output, factor.r, show)
      && r == Finished(after[|after| - 1], output)
    ensures JobRan(env, SpeedJob(factor), input, output, show, seen, before, after)
    ensures r == JobResult(env, SpeedJob(factor), output, after)
  {
  }

  lemma RotateRan(env: Env, degrees: int, input: Path, output: Path, show: real -> string, r: Result<Path>,
                  seen: map<Path, seq<string>>, before: seq<Exec>, after: seq<Exec>)
    requires FfmpegTools.RotateFilter(degrees).Err? ==> r == Err(ValueError(FfmpegTools.BadDegrees)) && after == before
    requires FfmpegTools.RotateFilter(degrees).Ok? ==>
      after == before + [Exec(FfmpegTools.RotateCmd(FfmpegTools.FfmpegBin(env), input, output, FfmpegTools.RotateFilter(degrees).value), seen, r.Ok?)]
      && r == Finished(after[|after| - 1], output)
    ensures JobRan(env, RotateJob(degrees), input, output, show, seen, before, after)
    ensures r == JobResult(env, RotateJob(degrees), output, after)
  {
  }

  /** The jobs that run one fixed command run exactly that command. */
  method RunFixedJob(h: Host, env: Env, job: Job, input: Path, output: Path) returns (r: Result<Path>)
    requires JobCmd(env, job, input, output).Some?
    modifies h
    ensures h.files == old(h.files) && h.dirs == old(h.dirs)
    ensures h.log == old(h.log) + [Exec(JobCmd(env, job, input, output).value, h.files, r.Ok?)]
    ensures r == Finished(h.log[|h.log| - 1], output)
  {
    match job
    case CompressJob(crf) =>
      r := FfmpegTools.CompressVideo(h, env, input, output, crf, FfmpegTools.DefaultPreset);
    case WatermarkJob(wm) =>
      r := FfmpegTools.AddTextWatermark(h, env, input, output, wm.text, wm.color, wm.size, wm.position);
    case ResizeJob(height) =>
      r := FfmpegTools.ResizeVideo(h, env, input, output, height);
    case ThumbJob =>
      r := FfmpegTools.ExtractThumbnail(h, env, input, output, ThumbAt);
    case ExtractJob =>
      r := FfmpegTools.ExtractAudio(h, env, input, output);
  }

  /** How a single-step `/send` ends, given how its text was read: a usage
      reply or the parse error with nothing run, or else the job runs as
      `JobRan` says and the reply is the answer to its result. */
  ghost predicate SingleStepDone(env: Env, plan: Parsed<Job>, input: Path, jobDir: Path, show: real -> string,
                                 seen: map<Path, seq<string>>, reply: Reply, before: seq<Exec>, after: seq<Exec>) {
    && |before| <= |after| && after[..|before|] == before
    && (plan.Usage? ==> reply == UsageText && after == before)
    && (plan.Bad? ==> reply == Failed(plan.error) && after == before)
    && (plan.Args? ==>
          var output := PathJoin(jobDir, OutputName(plan.value));
          && JobRan(env, plan.value, input, output, show, seen, before, after)
          && reply == Answer(JobResult(env, plan.value, output, after)))
  }

  /** The file is sent exactly when the job was not refused and its last run
      succeeded; otherwise the reply carries the refusal, or the failure of
      the command. */
  lemma SingleStepReply(env: Env, job: Job, input: Path, jobDir: Path, show: real -> string,
                        seen: map<Path, seq<string>>, reply: Reply, before: seq<Exec>, after: seq<Exec>)
    requires SingleStepDone(env, Args(job), input, jobDir, show, seen, reply, before, after)
    ensures reply.Sent? <==> JobRefusal(env, job).None? && after[|after| - 1].ok
    ensures reply.Sent? ==> reply == Sent(PathJoin(jobDir, OutputName(job)))
    ensures JobRefusal(env, job).Some? ==> reply == Failed(JobRefusal(env, job).value)
    ensures JobRefusal(env, job).None? && !after[|after| - 1].ok ==> reply == Failed(RuntimeError(CommandFailed))
  {
    var output := PathJoin(jobDir, OutputName(job));
    assert JobRan(env, job, input, output, show, seen, before, after);
    assert reply == Answer(JobResult(env, job, output, after));
  }

  /** The single-step branch of `send_handler`, once the text is read: the
      job runs when its arguments are there. */
  method SendSingle(h: Host, env: Env, plan: Parsed<Job>, input: Path, jobDir: Path, show: real -> string) returns (reply: Reply)
    modifies h
    ensures h.files == old(h.files) && h.dirs == old(h.dirs)
    ensures SingleStepDone(env, plan, input, jobDir, show, h.files, reply, old(h.log), h.log)
  {
    match plan
    case Usage =>
      reply := UsageText;
    case Bad(e) =>
      reply := Failed(e);
    case Args(job) =>
      var r := RunJob(h, env, job, input, PathJoin(jobDir, OutputName(job)), show);
      reply := Answer(r);
  }

  /** The second step of an audio replacement: the stored target's video with
      the downloaded audio, copying the video stream first and re-encoding
      exactly when the copy failed; the reply is the output exactly when the
      last run succeeded. */
  method ReplaceStep(h: Host, env: Env, target: Path, audio: Path, jobDir: Path) returns (reply: Reply)
    modifies h
    ensures h.files == old(h.files) && h.dirs == old(h.dirs)
    ensures ReplaceRan(env, target, audio, jobDir, old(h.log), h.log)
    ensures reply == Answer(Finished(h.log[|h.log| - 1], PathJoin(jobDir, ReplacedName)))
  {
    var r := FfmpegTools.ReplaceAudio(h, env, target, audio, PathJoin(jobDir, ReplacedName));
    reply := Answer(r);
  }

  /** The runs of the second audio-replacement step. */
  predicate ReplaceRan(env: Env, target: Path, audio: Path, jobDir: Path, before: seq<Exec>, after: seq<Exec>) {
    var bin := FfmpegTools.FfmpegBin(env);
    var output := PathJoin(jobDir, ReplacedName);
    FallbackRan(FfmpegTools.ReplaceCopyCmd(bin, target, audio, output), FfmpegTools.ReplaceEncodeCmd(bin, target, audio, output),
                before, after)
  }

  /** The answer to a finished operation. */
  function Answer(r: Result<Path>): Reply {
    match r
    case Ok(p) => Sent(p)
    case Err(e) => Failed(e)
  }

  /** `/send` goes past its three early returns. */
  predicate Proceeds(state: map<int, Session>, user: int, replied: Replied) {
    user in state && state[user].action != MergeCollect && IsVideoOrDocument(replied)
  }

  /** `/add` and `/done` find a merge in progress. */
  predicate Merging(state: map<int, Session>, user: int) {
    user in state && state[user].action == MergeCollect
  }

  /** The output of the second audio-replacement step. */
  const ReplacedName := "replaced_audio.mp4"

  /** The output of `/done`. */
  const MergedName := "merged.mp4"

  /** The crf `/done` merges at. */
  const MergeCrf := 22

  // ---------------------------------------------------------------------------
  // The bot

  class Bot {
    /** `USER_STATE` */
    var userState: map<int, Session>
    /** `TMP_ROOT` */
    const root: Path

    /** Every stored record is well formed. */
    predicate Valid()
      reads this
    {
      forall u | u in userState :: WellFormed(userState[u])
    }

    /** Importing `main.py`: no sessions yet, and `TMP_ROOT` is created. */
    constructor (h: Host, env: Env)
      modifies h
      ensures Valid() && userState == map[] && root == TmpRoot(env)
      ensures h.dirs == old(h.dirs) + {TmpRoot(env)} && h.files == old(h.files) && h.log == old(h.log)
    {
      userState := map[];
      root := TmpRoot(env);
      h.MakeDir(TmpRoot(env));
    }

    /** `cb_handler`: an action's button replaces the user's record with a
        fresh one; every other callback leaves all records alone. */
    method OnCallback(user: int, data: string) returns (reply: Reply)
      requires Valid()
      modifies this
      ensures Valid()
      ensures ActionFor(data).Some? ==>
        userState == old(userState)[user := Fresh(ActionFor(data).value)] && reply == Selected(ActionFor(data).value)
      ensures ActionFor(data).None? ==> userState == old(userState)
      ensures IsMenu(data) ==> reply == Navigated
      ensures ActionFor(data).None? && !IsMenu(data) ==> reply == UnknownAction
    {
      var a := ActionFor(data);
      if a.Some? {
        userState := userState[user := Fresh(a.value)];
        reply := Selected(a.value);
      } else if IsMenu(data) {
        reply := Navigated;
      } else {
        reply := UnknownAction;
      }
    }

    /** `send_handler`.  `download` is the outcome of downloading the replied-to
        message into the job directory, `hex` the uuid whose first ten digits
        name that directory, and `show` Python's rendering of a float. */
    method OnSend(h: Host, env: Env, user: int, msg: string, replied: Replied, download: Result<Path>, hex: string,
                  show: real -> string) returns (reply: Reply)
      requires Valid() && IsUuidHex(hex)
      modifies this, h
      ensures Valid()
      // The early returns: nothing changes.
      ensures user !in old(userState) ==> reply == NoActionSelected
      ensures Merging(old(userState), user) ==> reply == UseMergeCommands
      ensures user in old(userState) && !Merging(old(userState), user) && !IsVideoOrDocument(replied) ==> reply == NeedVideo
      ensures !Proceeds(old(userState), user, replied) ==>
        userState == old(userState) && h.files == old(h.files) && h.dirs == old(h.dirs) && h.log == old(h.log)
      // Past them the job directory is made and nothing else on disk changes.
      ensures Proceeds(old(userState), user, replied) ==>
        && h.dirs == old(h.dirs) + {JobDir(root, user, hex)}
        && h.files == old(h.files)
        && |old(h.log)| <= |h.log| && h.log[..|old(h.log)|] == old(h.log)
      ensures Proceeds(old(userState), user, replied) && download.Err? ==>
        reply == Failed(download.error) && userState == old(userState) && h.log == old(h.log)
      // Single-step actions never change the user's record.
      ensures Proceeds(old(userState), user, replied) && download.Ok? && SingleStep(old(userState)[user].action) ==>
        && userState == old(userState)
        && SingleStepDone(env, Plan(old(userState)[user].action, msg), download.value, JobDir(root, user, hex), show,
                          h.files, reply, old(h.log), h.log)
      // The audio replacement: the first step stores the target and runs nothing ...
      ensures Proceeds(old(userState), user, replied) && download.Ok? && old(userState)[user].action == AudioReplace
              && old(userState)[user].audioTarget.None? ==>
        && userState == old(userState)[user := old(userState)[user].(audioTarget := Some(download.value))]
        && reply == TargetSaved && h.log == old(h.log)
      // ... and the second consumes it, whatever the outcome of the replacement.
      ensures Proceeds(old(userState), user, replied) && download.Ok? && old(userState)[user].action == AudioReplace
              && old(userState)[user].audioTarget.Some? ==>
        && userState == old(userState)[user := old(userState)[user].(audioTarget := None)]
        && ReplaceRan(env, old(userState)[user].audioTarget.value, download.value, JobDir(root, user, hex), old(h.log), h.log)
        && reply == Answer(Finished(h.log[|h.log| - 1], PathJoin(JobDir(root, user, hex), ReplacedName)))
    {
      if user !in userState {
        return NoActionSelected;
      }
      var state := userState[user];
      if state.action == MergeCollect {
        return UseMergeCommands;
      }
      if !IsVideoOrDocument(replied) {
        return NeedVideo;
      }
      var jobDir := JobDir(root, user, hex);
      h.MakeDir(jobDir);
      if download.Err? {
        return Failed(download.error);
      }
      var input := download.value;
      if state.action == AudioReplace {
        if state.audioTarget.None? {
          userState := userState[user := state.(audioTarget := Some(input))];
          reply := TargetSaved;
        } else {
          var target := state.audioTarget.value;
          userState := userState[user := state.(audioTarget := None)];
          reply := ReplaceStep(h, env, target, input, jobDir);
        }
      } else {
        reply := SendSingle(h, env, Plan(state.action, msg), input, jobDir, show);
      }
    }

    /** `add_for_merge`: during a merge, one downloaded video is appended to
        the collected list; otherwise nothing changes. */
    method OnAdd(h: Host, user: int, replied: Replied, download: Result<Path>, hex: string) returns (reply: Reply)
      requires Valid() && IsUuidHex(hex)
      modifies this, h
      ensures Valid()
      ensures h.files == old(h.files) && h.log == old(h.log)
      ensures !Merging(old(userState), user) ==>
        reply == NoMergeSession && userState == old(userState) && h.dirs == old(h.dirs)
      ensures Merging(old(userState), user) && !IsVideoOrDocument(replied) ==>
        reply == NeedVideo && userState == old(userState) && h.dirs == old(h.dirs)
      ensures Merging(old(userState), user) && IsVideoOrDocument(replied) ==>
        h.dirs == old(h.dirs) + {JobDir(root, user, hex)}
      ensures Merging(old(userState), user) && IsVideoOrDocument(replied) && download.Err? ==>
        reply == Failed(download.error) && userState == old(userState)
      ensures Merging(old(userState), user) && IsVideoOrDocument(replied) && download.Ok? ==>
        && userState == old(userState)[user := old(userState)[user].(collected := old(userState)[user].collected + [download.value])]
        && reply == Added(|old(userState)[user].collected| + 1)
    {
      if !(user in userState && userState[user].action == MergeCollect) {
        return NoMergeSession;
      }
      if !IsVideoOrDocument(replied) {
        return NeedVideo;
      }
      var state := userState[user];
      h.MakeDir(JobDir(root, user, hex));
      if download.Err? {
        return Failed(download.error);
      }
      var collected := state.collected + [download.value];
      userState := userState[user := state.(collected := collected)];
      reply := Added(|collected|);
    }

    /** `done_merge`: with at least two collected videos they are merged and
        the user's record is removed, whether the merge succeeds or not; with
        fewer, nothing changes. */
    method OnDone(h: Host, env: Env, user: int, hex: string) returns (reply: Reply)
      requires Valid() && IsUuidHex(hex)
      modifies this, h
      ensures Valid()
      ensures !Merging(old(userState), user) ==>
        reply == NoMergeSession && userState == old(userState)
        && h.files == old(h.files) && h.dirs == old(h.dirs) && h.log == old(h.log)
      ensures Merging(old(userState), user) && |old(userState)[user].collected| < 2 ==>
        reply == NeedTwoVideos && userState == old(userState)
        && h.files == old(h.files) && h.dirs == old(h.dirs) && h.log == old(h.log)
      ensures Merging(old(userState), user) && |old(userState)[user].collected| >= 2 ==>
        var out := PathJoin(JobDir(root, user, hex), MergedName);
        var listFile := FfmpegTools.ConcatListFile(env, out, h.pid);
        && userState == old(userState) - {user}
        && h.dirs == old(h.dirs) + {JobDir(root, user, hex)}
        && h.files == old(h.files) - {listFile}
        && h.log == old(h.log) + [Exec(FfmpegTools.ToolsMergeCmd(FfmpegTools.FfmpegBin(env), listFile, out, MergeCrf),
                                       old(h.files)[listFile := ConcatList.ListLines(h.cwd, old(userState)[user].collected)],
                                       reply.Sent?)]
        && reply == Answer(Finished(h.log[|h.log| - 1], out))
    {
      if !(user in userState && userState[user].action == MergeCollect) {
        return NoMergeSession;
      }
      var files := userState[user].collected;
      if |files| < 2 {
        return NeedTwoVideos;
      }
      var jobDir := JobDir(root, user, hex);
      h.MakeDir(jobDir);
      var r := FfmpegTools.MergeVideos(h, env, files, PathJoin(jobDir, MergedName), MergeCrf);
      reply := Answer(r);
      userState := userState - {user};
    }
  }
}
