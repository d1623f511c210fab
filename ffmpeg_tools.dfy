/** The ffmpeg operations of `bot/utils/ffmpeg_tools.py`: each turns its
    parameters into one argument vector (two for the operations that retry),
    checks the parameters it validates before anything runs, and runs the
    command on the host.  Filter expressions are opaque strings to the model;
    only their assembly is modelled. */
module FfmpegTools {
  import opened Common
  import opened Text
  import opened Speed
  import opened Host
  import opened ConcatList

  // ---------------------------------------------------------------------------
  // Configuration read when the module is imported

  /** `FFMPEG`: the ffmpeg executable. */
  function FfmpegBin(env: Env): string {
    GetEnvOr(env, "FFMPEG_BIN", "ffmpeg")
  }

  /** `TMP_DIR`: where the merge list file goes. */
  function TmpDir(env: Env): Path {
    GetEnvOr(env, "TMP_DIR", "downloads")
  }

  /** The default x264 preset of `compress_video`. */
  const DefaultPreset := "fast"

  // ---------------------------------------------------------------------------
  // Running commands

  /** One `_run_cmd(cmd)` followed by `return output_path`. */
  method RunOnce(h: Host, cmd: Cmd, output: Path) returns (r: Result<Path>)
    modifies h
    ensures h.log == old(h.log) + [Exec(cmd, h.files, r.Ok?)]
    ensures h.files == old(h.files) && h.dirs == old(h.dirs)
    ensures r == Finished(h.log[|h.log| - 1], output)
  {
    var ok := h.Run(cmd);
    r := Finished(h.log[|h.log| - 1], output);
  }

  /** The retry of `trim_video` and `replace_audio`: the stream-copy command
      runs first; only when it fails does the re-encoding command run, once. */
  method RunWithFallback(h: Host, first: Cmd, second: Cmd, output: Path) returns (r: Result<Path>)
    modifies h
    ensures h.files == old(h.files) && h.dirs == old(h.dirs)
    ensures |old(h.log)| < |h.log| <= |old(h.log)| + 2
    ensures h.log[..|old(h.log)|] == old(h.log)
    ensures h.log[|old(h.log)|].cmd == first
    ensures h.log[|old(h.log)|].ok <==> |h.log| == |old(h.log)| + 1
    ensures |h.log| == |old(h.log)| + 2 ==> h.log[|old(h.log)| + 1].cmd == second
    ensures r == Finished(h.log[|h.log| - 1], output)
  {
    var ok := h.Run(first);
    if ok {
      r := Ok(output);
    } else {
      r := RunOnce(h, second, output);
    }
  }

  // ---------------------------------------------------------------------------
  // compress_video, resize_video, extract_audio, extract_thumbnail

  function CompressCmd(bin: string, input: Path, output: Path, crf: int, preset: string): Cmd {
    [bin, "-y", "-i", input,
     "-c:v", "libx264", "-preset", preset, "-crf", IntToString(crf),
     "-c:a", "aac", "-b:a", "128k",
     output]
  }

  method CompressVideo(h: Host, env: Env, input: Path, output: Path, crf: int, preset: string) returns (r: Result<Path>)
    modifies h
    ensures h.log == old(h.log) + [Exec(CompressCmd(FfmpegBin(env), input, output, crf, preset), h.files, r.Ok?)]
    ensures h.files == old(h.files) && h.dirs == old(h.dirs)
    ensures r == Finished(h.log[|h.log| - 1], output)
  {
    r := RunOnce(h, CompressCmd(FfmpegBin(env), input, output, crf, preset), output);
  }

  /** The scale filter keeps the aspect ratio: width -2 lets ffmpeg pick an even width. */
  function ResizeCmd(bin: string, input: Path, output: Path, height: int): Cmd {
    [bin, "-y", "-i", input, "-vf", "scale=-2:" + IntToString(height), "-c:v", "libx264", "-c:a", "aac", output]
  }

  method ResizeVideo(h: Host, env: Env, input: Path, output: Path, height: int) returns (r: Result<Path>)
    modifies h
    ensures h.log == old(h.log) + [Exec(ResizeCmd(FfmpegBin(env), input, output, height), h.files, r.Ok?)]
    ensures h.files == old(h.files) && h.dirs == old(h.dirs)
    ensures r == Finished(h.log[|h.log| - 1], output)
  {
    r := RunOnce(h, ResizeCmd(FfmpegBin(env), input, output, height), output);
  }

  function ExtractAudioCmd(bin: string, input: Path, output: Path): Cmd {
    [bin, "-y", "-i", input, "-vn", "-acodec", "mp3", "-ab", "192k", output]
  }

  method ExtractAudio(h: Host, env: Env, input: Path, output: Path) returns (r: Result<Path>)
    modifies h
    ensures h.log == old(h.log) + [Exec(ExtractAudioCmd(FfmpegBin(env), input, output), h.files, r.Ok?)]
    ensures h.files == old(h.files) && h.dirs == old(h.dirs)
    ensures r == Finished(h.log[|h.log| - 1], output)
  {
    r := RunOnce(h, ExtractAudioCmd(FfmpegBin(env), input, output), output);
  }

  /** The seek comes before the input, so ffmpeg seeks in the input itself. */
  function ThumbnailCmd(bin: string, input: Path, output: Path, at: string): Cmd {
    [bin, "-y", "-ss", at, "-i", input, "-frames:v", "1", output]
  }

  method ExtractThumbnail(h: Host, env: Env, input: Path, output: Path, at: string) returns (r: Result<Path>)
    modifies h
    ensures h.log == old(h.log) + [Exec(ThumbnailCmd(FfmpegBin(env), input, output, at), h.files, r.Ok?)]
    ensures h.files == old(h.files) && h.dirs == old(h.dirs)
    ensures r == Finished(h.log[|h.log| - 1], output)
  {
    r := RunOnce(h, ThumbnailCmd(FfmpegBin(env), input, output, at), output);
  }

  // ---------------------------------------------------------------------------
  // trim_video and replace_audio: stream copy, then one re-encode

  function TrimCopyCmd(bin: string, input: Path, output: Path, start: string, end: string): Cmd {
    [bin, "-y", "-i", input, "-ss", start, "-to", end, "-c", "copy", output]
  }

  function TrimEncodeCmd(bin: string, input: Path, output: Path, start: string, end: string): Cmd {
    [bin, "-y", "-i", input, "-ss", start, "-to", end, "-c:v", "libx264", "-c:a", "aac", output]
  }

  method TrimVideo(h: Host, env: Env, input: Path, output: Path, start: string, end: string) returns (r: Result<Path>)
    modifies h
    ensures h.files == old(h.files) && h.dirs == old(h.dirs)
    ensures |old(h.log)| < |h.log| <= |old(h.log)| + 2
    ensures h.log[..|old(h.log)|] == old(h.log)
    ensures h.log[|old(h.log)|].cmd == TrimCopyCmd(FfmpegBin(env), input, output, start, end)
    ensures h.log[|old(h.log)|].ok <==> |h.log| == |old(h.log)| + 1
    ensures |h.log| == |old(h.log)| + 2 ==> h.log[|old(h.log)| + 1].cmd == TrimEncodeCmd(FfmpegBin(env), input, output, start, end)
    ensures r == Finished(h.log[|h.log| - 1], output)
  {
    var bin := FfmpegBin(env);
    r := RunWithFallback(h, TrimCopyCmd(bin, input, output, start, end), TrimEncodeCmd(bin, input, output, start, end), output);
  }

  function ReplaceCopyCmd(bin: string, video: Path, audio: Path, output: Path): Cmd {
    [bin, "-y", "-i", video, "-i", audio, "-c:v", "copy",
     "-map", "0:v:0", "-map", "1:a:0", "-shortest", output]
  }

  function ReplaceEncodeCmd(bin: string, video: Path, audio: Path, output: Path): Cmd {
    [bin, "-y", "-i", video, "-i", audio, "-c:v", "copy", "-c:a", "aac",
     "-map", "0:v:0", "-map", "1:a:0", "-shortest", output]
  }

  method ReplaceAudio(h: Host, env: Env, video: Path, audio: Path, output: Path) returns (r: Result<Path>)
    modifies h
    ensures h.files == old(h.files) && h.dirs == old(h.dirs)
    ensures |old(h.log)| < |h.log| <= |old(h.log)| + 2
    ensures h.log[..|old(h.log)|] == old(h.log)
    ensures h.log[|old(h.log)|].cmd == ReplaceCopyCmd(FfmpegBin(env), video, audio, output)
    ensures h.log[|old(h.log)|].ok <==> |h.log| == |old(h.log)| + 1
    ensures |h.log| == |old(h.log)| + 2 ==> h.log[|old(h.log)| + 1].cmd == ReplaceEncodeCmd(FfmpegBin(env), video, audio, output)
    ensures r == Finished(h.log[|h.log| - 1], output)
  {
    var bin := FfmpegBin(env);
    r := RunWithFallback(h, ReplaceCopyCmd(bin, video, audio, output), ReplaceEncodeCmd(bin, video, audio, output), output);
  }

  // ---------------------------------------------------------------------------
  // Text watermarks: the drawtext filter as a list of `key=value` options

  type DrawOption = (string, string)

  /** `drawtext=k1=v1:k2=v2:...` */
  function Drawtext(opts: seq<DrawOption>): string {
    "drawtext=" + JoinWith(seq(|opts|, k requires 0 <= k < |opts| => opts[k].0 + "=" + opts[k].1), ":")
  }

  predicate HasOption(opts: seq<DrawOption>, key: string) {
    exists k | 0 <= k < |opts| :: opts[k].0 == key
  }

  /** The `fontfile` option, present only when `FONT_FILE` is set and non-empty. */
  function FontOption(font: Option<string>): seq<DrawOption> {
    if Truthy(font) then [("fontfile", font.value)] else []
  }

  /** Adding an option to the list appends `:key=value` to the rendered filter,
      as the source's `drawtext += f":fontfile=..."` does. */
  lemma {:induction false} DrawtextAppend(opts: seq<DrawOption>, o: DrawOption)
    requires |opts| >= 1
    ensures Drawtext(opts + [o]) == Drawtext(opts) + ":" + o.0 + "=" + o.1
  {
    var texts := seq(|opts|, k requires 0 <= k < |opts| => opts[k].0 + "=" + opts[k].1);
    var more := seq(|opts + [o]|, k requires 0 <= k < |opts + [o]| => (opts + [o])[k].0 + "=" + (opts + [o])[k].1);
    assert more == texts + [o.0 + "=" + o.1];
    JoinAppend(texts, o.0 + "=" + o.1, ":");
  }

  lemma {:induction false} JoinAppend(parts: seq<string>, last: string, sep: string)
    requires |parts| >= 1
    ensures JoinWith(parts + [last], sep) == JoinWith(parts, sep) + sep + last
  {
    if |parts| == 1 {
      assert JoinWith(parts + [last], sep) == parts[0] + sep + JoinWith([last], sep) by {
        assert (parts + [last])[1..] == [last];
      }
    } else {
      assert (parts + [last])[1..] == parts[1..] + [last];
      JoinAppend(parts[1..], last, sep);
    }
  }

  /** The five positions `add_text_watermark` knows. */
  datatype Placement = Center | TopLeft | TopRight | BottomLeft | BottomRight

  function PositionName(p: Placement): string {
    match p
    case Center => "center"
    case TopLeft => "top-left"
    case TopRight => "top-right"
    case BottomLeft => "bottom-left"
    case BottomRight => "bottom-right"
  }

  /** The position is lowered before it is matched; anything unrecognised is
      treated as bottom-right. */
  function PlacementOf(position: string): Placement {
    var pos := Lower(position);
    if pos == "center" then Center
    else if pos == "top-left" then TopLeft
    else if pos == "top-right" then TopRight
    else if pos == "bottom-left" then BottomLeft
    else BottomRight
  }

  /** The drawtext `x` and `y` expressions of each position, 10 pixels from the edges. */
  function PlacementXY(p: Placement): (string, string) {
    match p
    case Center => ("(w-text_w)/2", "(h-text_h)/2")
    case TopLeft => ("10", "10")
    case TopRight => ("w-text_w-10", "10")
    case BottomLeft => ("10", "h-text_h-10")
    case BottomRight => ("w-text_w-10", "h-text_h-10")
  }

  /** A position selects a named placement exactly when its lowered form is
      that placement's name; every other position gives bottom-right. */
  lemma PlacementByName(position: string)
    ensures forall p: Placement | p != BottomRight :: PlacementOf(position) == p <==> Lower(position) == PositionName(p)
    ensures PlacementOf(position) == BottomRight <==> forall p: Placement | p != BottomRight :: Lower(position) != PositionName(p)
  {
    var q := PlacementOf(position);
    if q != BottomRight {
      assert Lower(position) == PositionName(q);
    }
  }

  /** Matching ignores case: a position and its lowered form place the text alike. */
  lemma PlacementIgnoresCase(position: string)
    ensures PlacementOf(Lower(position)) == PlacementOf(position)
  {
    LowerIdempotent(position);
  }

  /** Each name places the text where that name says. */
  lemma PlacementOfName(p: Placement)
    ensures PlacementOf(PositionName(p)) == p
  {
    var name := PositionName(p);
    assert Lower(name) == name;
  }

  /** Different placements put the text in different places. */
  lemma PlacementXYDistinct(p: Placement, q: Placement)
    ensures PlacementXY(p) == PlacementXY(q) <==> p == q
  {
  }

  function StaticOptions(text: string, color: string, fontsize: int, position: string, font: Option<string>): seq<DrawOption> {
    var xy := PlacementXY(PlacementOf(position));
    [("text", "'" + text + "'"), ("fontcolor", color), ("fontsize", IntToString(fontsize)), ("x", xy.0), ("y", xy.1)]
      + FontOption(font)
  }

  function DrawtextCmd(bin: string, input: Path, output: Path, opts: seq<DrawOption>): Cmd {
    [bin, "-y", "-i", input, "-vf", Drawtext(opts), "-c:a", "copy", output]
  }

  method AddTextWatermark(h: Host, env: Env, input: Path, output: Path, text: string, color: string, fontsize: int, position: string)
    returns (r: Result<Path>)
    modifies h
    ensures h.log == old(h.log) + [Exec(DrawtextCmd(FfmpegBin(env), input, output,
                                          StaticOptions(text, color, fontsize, position, GetEnv(env, "FONT_FILE"))), h.files, r.Ok?)]
    ensures h.files == old(h.files) && h.dirs == old(h.dirs)
    ensures r == Finished(h.log[|h.log| - 1], output)
  {
    var opts := StaticOptions(text, color, fontsize, position, GetEnv(env, "FONT_FILE"));
    r := RunOnce(h, DrawtextCmd(FfmpegBin(env), input, output, opts), output);
  }

  /** The two directions of `add_moving_watermark`. */
  datatype Motion = LeftRight | TopBottom

  /** The mode is matched exactly, without lowering: only `top-bottom` moves vertically. */
  function MotionOf(mode: string): Motion {
    if mode == "top-bottom" then TopBottom else LeftRight
  }

  /** The `x` and `y` expressions: the text scrolls in from one edge to the
      other over ten seconds, centred on the other axis. */
  function MotionXY(m: Motion): (string, string) {
    match m
    case TopBottom => ("(w-text_w)/2", "-text_h+mod(t*(h+text_h)/max(1,10),h+text_h)")
    case LeftRight => ("-text_w+mod(t*(w+text_w)/max(1,10),w+text_w)", "(h-text_h)/2")
  }

  /** Unlike the static position, the mode is case-sensitive. */
  lemma MotionIsCaseSensitive()
    ensures PlacementOf("Top-Left") == TopLeft
    ensures MotionOf("Top-Bottom") == LeftRight
  {
    assert Lower("Top-Left") == "top-left";
  }

  function MovingOptions(text: string, color: string, fontsize: int, mode: string, font: Option<string>): seq<DrawOption> {
    var xy := MotionXY(MotionOf(mode));
    [("text", "'" + text + "'"), ("fontcolor", color), ("fontsize", IntToString(fontsize)), ("x", xy.0), ("y", xy.1)]
      + FontOption(font)
  }

  /** Options that do not name a font file name one exactly when `FontOption`
      adds it, and then the rendered filter gains `:fontfile=<path>` at its end. */
  lemma FontOptionAppended(base: seq<DrawOption>, font: Option<string>)
    requires |base| >= 1
    requires forall k | 0 <= k < |base| :: base[k].0 != "fontfile"
    ensures HasOption(base + FontOption(font), "fontfile") <==> Truthy(font)
    ensures Truthy(font) ==> Drawtext(base + FontOption(font)) == Drawtext(base) + ":fontfile=" + font.value
  {
    if Truthy(font) {
      assert (base + FontOption(font))[|base|].0 == "fontfile";
      DrawtextAppend(base, ("fontfile", font.value));
    } else {
      assert base + FontOption(font) == base;
    }
  }

  /** Both watermark filters name a font file exactly when one is configured,
      and then as their last option, appended to the filter text. */
  lemma FontfileIffConfigured(text: string, color: string, fontsize: int, place: string, font: Option<string>)
    ensures HasOption(StaticOptions(text, color, fontsize, place, font), "fontfile") <==> Truthy(font)
    ensures HasOption(MovingOptions(text, color, fontsize, place, font), "fontfile") <==> Truthy(font)
    ensures Truthy(font) ==>
      Drawtext(StaticOptions(text, color, fontsize, place, font))
        == Drawtext(StaticOptions(text, color, fontsize, place, None)) + ":fontfile=" + font.value
    ensures Truthy(font) ==>
      Drawtext(MovingOptions(text, color, fontsize, place, font))
        == Drawtext(MovingOptions(text, color, fontsize, place, None)) + ":fontfile=" + font.value
  {
    var s := StaticOptions(text, color, fontsize, place, None);
    var m := MovingOptions(text, color, fontsize, place, None);
    assert StaticOptions(text, color, fontsize, place, font) == s + FontOption(font);
    assert MovingOptions(text, color, fontsize, place, font) == m + FontOption(font);
    FontOptionAppended(s, font);
    FontOptionAppended(m, font);
  }

  /** `int(os.getenv("WM_FONT_SIZE", "36"))`, which raises on a non-integer. */
  function MovingFontSize(env: Env): Result<int> {
    var raw := GetEnvOr(env, "WM_FONT_SIZE", "36");
    match ParseInt(raw)
    case Some(n) => Ok(n)
    case None => Err(IntError(raw))
  }

  method AddMovingWatermark(h: Host, env: Env, input: Path, output: Path, text: string, mode: string) returns (r: Result<Path>)
    modifies h
    ensures h.files == old(h.files) && h.dirs == old(h.dirs)
    ensures MovingFontSize(env).Err? ==> r == Err(MovingFontSize(env).error) && h.log == old(h.log)
    ensures MovingFontSize(env).Ok? ==>
      h.log == old(h.log) + [Exec(DrawtextCmd(FfmpegBin(env), input, output,
                                   MovingOptions(text, GetEnvOr(env, "WM_COLOR", "white"), MovingFontSize(env).value, mode,
                                                 GetEnv(env, "FONT_FILE"))), h.files, r.Ok?)]
      && r == Finished(h.log[|h.log| - 1], output)
  {
    var size := MovingFontSize(env);
    if size.Err? {
      return Err(size.error);
    }
    var opts := MovingOptions(text, GetEnvOr(env, "WM_COLOR", "white"), size.value, mode, GetEnv(env, "FONT_FILE"));
    r := RunOnce(h, DrawtextCmd(FfmpegBin(env), input, output, opts), output);
  }

  // ---------------------------------------------------------------------------
  // rotate_video

  const BadDegrees := "Degrees must be 90, 180, or 270"

  /** The transpose stages for a rotation; only quarter, half and
      three-quarter turns are accepted. */
  function RotateStages(degrees: int): (r: Result<seq<string>>)
    ensures r.Err? <==> degrees != 90 && degrees != 180 && degrees != 270
    ensures r.Err? ==> r.error == ValueError(BadDegrees)
  {
    if degrees != 90 && degrees != 180 && degrees != 270 then Err(ValueError(BadDegrees))
    else if degrees == 90 then Ok(["transpose=1"])
    else if degrees == 270 then Ok(["transpose=2"])
    else Ok(["transpose=1", "transpose=1"])
  }

  /** The `-vf` argument: the stages joined by commas. */
  function RotateFilter(degrees: int): Result<string> {
    match RotateStages(degrees)
    case Ok(stages) => Ok(JoinWith(stages, ","))
    case Err(e) => Err(e)
  }

  /** The clockwise rotation of one transpose stage in quarter turns:
      `transpose=1` turns 90 degrees clockwise, `transpose=2` 90 degrees
      counter-clockwise, that is three quarter turns clockwise. */
  function StageTurns(stage: string): Option<int> {
    if stage == "transpose=1" then Some(1)
    else if stage == "transpose=2" then Some(3)
    else None
  }

  function ChainTurns(stages: seq<string>): Option<int> {
    if stages == [] then Some(0)
    else match (StageTurns(stages[0]), ChainTurns(stages[1..]))
      case (Some(a), Some(b)) => Some(a + b)
      case _ => None
  }

  /** Every accepted angle yields transposes that together turn the picture
      clockwise by exactly that angle. */
  lemma {:induction false} RotateStagesTurns(degrees: int)
    requires RotateStages(degrees).Ok?
    ensures ChainTurns(RotateStages(degrees).value).Some?
    ensures (90 * ChainTurns(RotateStages(degrees).value).value) % 360 == degrees
  {
    var stages := RotateStages(degrees).value;
    assert StageTurns("transpose=1") == Some(1);
    assert StageTurns("transpose=2") == Some(3);
    if degrees == 90 {
      assert ChainTurns(stages) == Some(1 + 0);
    } else if degrees == 270 {
      assert ChainTurns(stages) == Some(3 + 0);
    } else {
      assert stages[1..] == ["transpose=1"];
      assert ChainTurns(stages[1..]) == Some(1 + 0);
      assert ChainTurns(stages) == Some(1 + 1);
    }
  }

  /** The comma-separated parts of the filter are exactly those stages. */
  lemma RotateFilterStages(degrees: int)
    requires RotateFilter(degrees).Ok?
    ensures SplitOn(RotateFilter(degrees).value, ',') == RotateStages(degrees).value
  {
    var stages := RotateStages(degrees).value;
    assert forall k | 0 <= k < |stages| :: ',' !in stages[k] by {
      assert ',' !in "transpose=1" && ',' !in "transpose=2";
    }
    SplitOnJoin(stages, ',');
  }

  /** The filter texts for the three angles. */
  lemma RotateFilterTexts()
    ensures RotateFilter(90) == Ok("transpose=1")
    ensures RotateFilter(270) == Ok("transpose=2")
    ensures RotateFilter(180) == Ok("transpose=1,transpose=1")
  {
    var one := "transpose=1";
    assert ["transpose=1", "transpose=1"][1..] == [one];
    assert JoinWith(["transpose=1", "transpose=1"], ",") == one + "," + one;
    assert one + "," + one == "transpose=1,transpose=1";
  }

  function RotateCmd(bin: string, input: Path, output: Path, filter: string): Cmd {
    [bin, "-y", "-i", input, "-vf", filter, "-c:v", "libx264", "-c:a", "copy", output]
  }

  method RotateVideo(h: Host, env: Env, input: Path, output: Path, degrees: int) returns (r: Result<Path>)
    modifies h
    ensures h.files == old(h.files) && h.dirs == old(h.dirs)
    ensures RotateFilter(degrees).Err? ==> r == Err(ValueError(BadDegrees)) && h.log == old(h.log)
    ensures RotateFilter(degrees).Ok? ==>
      h.log == old(h.log) + [Exec(RotateCmd(FfmpegBin(env), input, output, RotateFilter(degrees).value), h.files, r.Ok?)]
      && r == Finished(h.log[|h.log| - 1], output)
  {
    var filter := RotateFilter(degrees);
    if filter.Err? {
      return Err(filter.error);
    }
    r := RunOnce(h, RotateCmd(FfmpegBin(env), input, output, filter.value), output);
  }

  // ---------------------------------------------------------------------------
  // change_speed

  /** The conditions the audio stages satisfy for a valid factor. */
  predicate ValidChain(factor: real, stages: seq<real>) {
    && ChainShape(stages)
    && (forall k | 0 <= k < |stages| :: InTempoRange(stages[k]))
    && Product(stages) == factor
    && (InTempoRange(factor) ==> stages == [factor])
  }

  /** `atempo=<stage>` for each stage; `show` renders a float as Python's `str` does. */
  function AtempoFilters(show: real -> string, stages: seq<real>): seq<string> {
    seq(|stages|, k requires 0 <= k < |stages| => "atempo=" + show(stages[k]))
  }

  /** Video and audio are retimed in one filter graph: the video timestamps are
      divided by the factor, the audio goes through the atempo chain. */
  function SpeedCmd(bin: string, input: Path, output: Path, factorText: string, atempo: seq<string>): Cmd {
    [bin, "-y", "-i", input,
     "-filter_complex", "[0:v] setpts=PTS/" + factorText + " [v]; [0:a] " + JoinWith(atempo, ",") + " [a]",
     "-map", "[v]", "-map", "[a]", "-c:v", "libx264", "-c:a", "aac",
     output]
  }

  /** The run of `change_speed` with a valid factor: some chain meeting
      `ValidChain` is what the filter graph contains. */
  ghost predicate SpeedRun(e: Exec, bin: string, input: Path, output: Path, factor: real, show: real -> string) {
    exists stages :: ValidChain(factor, stages) && e.cmd == SpeedCmd(bin, input, output, show(factor), AtempoFilters(show, stages))
  }

  method ChangeSpeed(h: Host, env: Env, input: Path, output: Path, factor: PyFloat, show: real -> string) returns (r: Result<Path>)
    modifies h
    ensures h.files == old(h.files) && h.dirs == old(h.dirs)
    ensures !(factor.Finite? && factor.r > 0.0) ==> r.Err? && r.error.ValueError? && h.log == old(h.log)
    ensures (factor == NegInf || (factor.Finite? && factor.r <= 0.0)) ==> r == Err(ValueError(NotPositive))
    ensures (factor == PosInf || factor == NaN) ==> r == Err(ValueError(NotFinite))
    ensures factor.Finite? && factor.r > 0.0 ==>
      |h.log| == |old(h.log)| + 1 && h.log[..|old(h.log)|] == old(h.log)
      && h.log[|old(h.log)|].seen == h.files
      && SpeedRun(h.log[|old(h.log)|], FfmpegBin(env), input, output, factor.r, show)
      && r == Finished(h.log[|h.log| - 1], output)
  {
    var chain := AtempoChain(factor);
    if chain.Err? {
      return Err(chain.error);
    }
    var cmd := SpeedCmd(FfmpegBin(env), input, output, show(factor.r), AtempoFilters(show, chain.value));
    r := RunOnce(h, cmd, output);
    assert ValidChain(factor.r, chain.value);
    assert h.log[|old(h.log)|].cmd == cmd;
  }

  // ---------------------------------------------------------------------------
  // merge_videos (the helper main.py uses)

  /** `TMP_DIR / f"concat_{stem}_{pid}.txt"` */
  function ConcatListFile(env: Env, output: Path, pid: nat): Path {
    PathJoin(TmpDir(env), "concat_" + Stem(output) + "_" + IntToString(pid) + ".txt")
  }

  function ToolsMergeCmd(bin: string, listFile: Path, output: Path, crf: int): Cmd {
    [bin, "-y", "-f", "concat", "-safe", "0", "-i", listFile,
     "-c:v", "libx264", "-preset", "fast", "-crf", IntToString(crf),
     "-c:a", "aac", "-b:a", "192k",
     output]
  }

  /** Writes the list file, runs the concat command over it, and removes the list
      file afterwards whether the run succeeded or not.  There is no check on the
      number of inputs: an empty or one-element list runs ffmpeg as well. */
  method MergeVideos(h: Host, env: Env, inputs: seq<Path>, output: Path, crf: int) returns (r: Result<Path>)
    modifies h
    ensures h.log == old(h.log) + [Exec(ToolsMergeCmd(FfmpegBin(env), ConcatListFile(env, output, h.pid), output, crf),
                                        old(h.files)[ConcatListFile(env, output, h.pid) := ListLines(h.cwd, inputs)], r.Ok?)]
    ensures h.files == old(h.files) - {ConcatListFile(env, output, h.pid)}
    ensures h.dirs == old(h.dirs)
    ensures r == Finished(h.log[|h.log| - 1], output)
  {
    var listFile := ConcatListFile(env, output, h.pid);
    WriteListFile(h, listFile, inputs);
    r := RunOnce(h, ToolsMergeCmd(FfmpegBin(env), listFile, output, crf), output);
    h.Unlink(listFile);
  }
}
