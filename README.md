# Lasthope bot core in Dafny

A Dafny model of the logic of the Lasthope Telegram bot. The bot wraps ffmpeg in a menu-driven chat interface. The model covers four parts:

- **ffmpeg operations** (`bot/utils/ffmpeg_tools.py`).
  - Each operation turns its parameters into one ffmpeg argument list and runs it.
  - Rotation angle and speed factor are validated before anything runs.
  - Watermark positions and modes map to x/y expressions.
  - A speed factor is split into a chain of `atempo` stages.
  - Trim and audio replacement fall back from a stream copy to exactly one re-encode.
  - The merge helper writes a concat list file and removes it whatever the outcome.
- **Session state machine** (`main.py`).
  - `USER_STATE` maps a user id to the record of the action picked from the menu.
  - `cb_handler` overwrites that record.
  - `/send` reads its arguments and runs one operation. For an audio replacement it stores a target video, then consumes it.
  - `/add` collects videos for a merge.
  - `/done` merges them and drops the record.
  - Job directories are named `<user id>_<10 hex digits>`.
- **Standalone merge helper** (`merge.py`). It checks its inputs in order, writes the list file, runs one concat command and cleans up.
- **Configuration check** (`configs.py`). `_int_env` reads a digits-only integer. `validate` reports the missing keys in a fixed order.

## How the world is represented

- A `Host.Host` object holds what the code can observe or change:
  - the files, as a map from path to lines;
  - the directories;
  - the working directory and process id;
  - a log of every command run. Each log entry records the files present at that moment and whether the run succeeded.
- `Host.Host.Run` is the abstract `_run_cmd`. Its outcome is arbitrary, and every contract holds for either outcome.
- The environment is a map parameter.
- Things the handlers get from outside are parameters:
  - the outcome of a chat download;
  - the uuid the job directory is named from;
  - the event loop's clock;
  - Python's rendering of a float.
- Python's `str` operations used by the parsers are modelled on `seq<char>` in module `Text`: `split()`, `split(maxsplit=1)`, `partition`, `split("|")`, `strip`, `lower`, `isdigit`, `int`, `str(int)`.
- `float` is modelled by `Speed.ParseFloat`. It covers signed decimals, `inf`/`infinity` and `nan`.

## Where the model follows the code rather than the design

The design description of this system disagrees with the code in a few places. Each time the model follows the code:

- **Single-step actions keep their record.** The design says a session returns to idle after its action runs. In the code, single-step `/send` actions never touch `USER_STATE`, so the same action can run again. After the second audio-replacement step only `audio_target` is removed; the `audio_replace` record stays.
- **The merge helper used by `/done` does not check its input count.** `merge_videos` in `ffmpeg_tools.py` has no count check; `/done` checks the count itself. Only `merge.py` raises for fewer than two inputs.
- **The list file is not in the job directory.** `ffmpeg_tools.py` writes it to `TMP_DIR/concat_<stem>_<pid>.txt`. `merge.py` writes it to `downloads/files_<ms>.txt`.
- **Timeout and failure are not distinguished.** A timeout and a non-zero exit raise the same `RuntimeError`, so the model has one failure outcome per run.
- **The speed chain is exact.** The product of the chain is exactly the factor, over reals, not within a floating-point tolerance.

## Model

| member | source | states |
|---|---|---|
| Host.Host.Run | bot/utils/ffmpeg_tools.py:16-30 | one run of a command: appended to the log with the files present and its outcome; no file or directory changes |
| Host.Stem | bot/utils/ffmpeg_tools.py:51 | `Path.stem`: a prefix of the base name, free of `/`; when shorter, it ends just before the last `.`, which is neither the first nor the last character; the whole name is kept only when no `.` after its first character starts a suffix (no dot, a leading dot only, or a trailing dot) |
| FfmpegTools.CompressVideo | bot/utils/ffmpeg_tools.py:34-45 | exactly one run, of the libx264/crf/preset/aac 128k command; returns the output path iff that run succeeded; files and directories unchanged |
| FfmpegTools.ResizeVideo | bot/utils/ffmpeg_tools.py:132-138 | exactly one run, of the `scale=-2:<height>` command; output iff it succeeded |
| FfmpegTools.ExtractAudio | bot/utils/ffmpeg_tools.py:140-143 | exactly one run, of the `-vn -acodec mp3 -ab 192k` command; output iff it succeeded |
| FfmpegTools.ExtractThumbnail | bot/utils/ffmpeg_tools.py:145-148 | exactly one run, of the `-ss <at> ... -frames:v 1` command; output iff it succeeded |
| FfmpegTools.TrimVideo | bot/utils/ffmpeg_tools.py:119-130 | the stream-copy command always runs first; a second run happens iff the first failed, and it is the re-encode; at most two runs; output iff the last run succeeded |
| FfmpegTools.ReplaceAudio | bot/utils/ffmpeg_tools.py:150-158 | the video-copy mux runs first; the aac re-encode runs iff the first failed; at most two runs; output iff the last run succeeded |
| FfmpegTools.PlacementByName | bot/utils/ffmpeg_tools.py:76-87 | each of center, top-left, top-right and bottom-left is chosen iff the lower-cased position equals its name; bottom-right is chosen iff none of them matches, so any unknown text gives bottom-right |
| FfmpegTools.PlacementIgnoresCase | bot/utils/ffmpeg_tools.py:76 | lower-casing the position first changes nothing: matching ignores case |
| FfmpegTools.PlacementOfName | bot/utils/ffmpeg_tools.py:77-87 | each placement's own name selects it |
| FfmpegTools.PlacementXYDistinct | bot/utils/ffmpeg_tools.py:77-87 | the five placements give five different x/y pairs |
| FfmpegTools.FontOptionAppended | bot/utils/ffmpeg_tools.py:92-93 | the filter has a `fontfile` option iff a non-empty font is configured, and then it ends in `:fontfile=<font>` |
| FfmpegTools.FontfileIffConfigured | bot/utils/ffmpeg_tools.py:89-114 | for both the static and the moving watermark: `:fontfile=` appears iff `FONT_FILE` is set and non-empty, appended after the other options |
| FfmpegTools.AddTextWatermark | bot/utils/ffmpeg_tools.py:70-97 | exactly one run, of the drawtext command built from text, colour, size, the placement of the position and the font; output iff it succeeded |
| FfmpegTools.MotionIsCaseSensitive | bot/utils/ffmpeg_tools.py:107-112 | the mode is matched exactly (`Top-Bottom` moves left-right) while the static position is matched case-insensitively |
| FfmpegTools.AddMovingWatermark | bot/utils/ffmpeg_tools.py:99-117 | a non-integer `WM_FONT_SIZE` raises with nothing run; otherwise exactly one run, with `WM_COLOR` (default white), the motion of the mode and the font; output iff it succeeded |
| FfmpegTools.RotateStages | bot/utils/ffmpeg_tools.py:191-198 | refuses with `ValueError` iff the angle is not 90, 180 or 270 |
| FfmpegTools.RotateStagesTurns | bot/utils/ffmpeg_tools.py:193-198 | the transpose stages of an accepted angle turn the picture by exactly that angle (clockwise quarter turns, modulo 360) |
| FfmpegTools.RotateFilterStages | bot/utils/ffmpeg_tools.py:193-198 | the `-vf` text splits on `,` into exactly those stages |
| FfmpegTools.RotateFilterTexts | bot/utils/ffmpeg_tools.py:193-198 | 90 gives `transpose=1`, 270 gives `transpose=2`, 180 gives `transpose=1,transpose=1` |
| FfmpegTools.RotateVideo | bot/utils/ffmpeg_tools.py:187-201 | a refused angle raises `ValueError` with nothing run; otherwise exactly one run with that filter; output iff it succeeded |
| FfmpegTools.ChangeSpeed | bot/utils/ffmpeg_tools.py:160-185 | a factor at most 0 raises `ValueError("Speed factor must be > 0")` with nothing run; `inf` and `nan` raise `ValueError("Speed factor must be finite")` with nothing run (see Findings); a positive factor gives exactly one run whose filter graph divides the timestamps by the factor and chains `atempo` stages that lie in [0.5, 2.0], have the factor as product and have the halving/doubling shape |
| FfmpegTools.MergeVideos | bot/utils/ffmpeg_tools.py:47-68 | no count check; exactly one concat run (preset fast) with the list file holding one `file '<resolved path>'` line per input in input order; the list file is gone afterwards whatever the outcome; output iff the run succeeded |
| Speed.HalveAboveTwo | bot/utils/ffmpeg_tools.py:173-175 | the first loop: only 2.0 stages, a remainder in (0, 2], stages times remainder is the factor, and nothing is added to a factor at most 2 |
| Speed.DoubleBelowHalf | bot/utils/ffmpeg_tools.py:176-178 | the second loop: only 0.5 stages, a remainder in [0.5, 2], stages times remainder is the factor, and nothing is added to a factor already at least 0.5 |
| Speed.ChainProduct | bot/utils/ffmpeg_tools.py:173-179 | the two runs of stages and the remainder multiply to the factor |
| Speed.ChainStages | bot/utils/ffmpeg_tools.py:173-179 | the chain is a run of 2.0 stages or a run of 0.5 stages (never both) and one final stage; every stage is in [0.5, 2.0]; a factor in range gives the single stage equal to it |
| Speed.AtempoChain | bot/utils/ffmpeg_tools.py:168-180 | refuses iff the factor is not a positive finite number (at most 0: the source's message); otherwise the chain has the shape, range, product and single-stage properties above |
| Speed.InfinityNeverLeavesHalvingLoop | bot/utils/ffmpeg_tools.py:170-175 | `float("inf")` passes the `<= 0` guard and the halving loop as written never ends for it, whatever the bound on iterations |
| Speed.FiniteLeavesHalvingLoop | bot/utils/ffmpeg_tools.py:173-175 | for every positive finite factor the halving loop as written ends within `floor(factor)` halvings |
| Speed.ParseFloatOfInt | main.py:291 | `float` of the decimal text of an integer is that integer |
| ConcatList.ListLinesNamePaths | merge.py:35-38 | line k of the list file names the resolved k-th input, in the form `file '<path>'` |
| ConcatList.WriteListFile | merge.py:30-38 | the list file holds exactly one line per input, in input order; nothing else changes |
| Merge.FirstAbsent | merge.py:51-54 | no absent input iff every input exists; otherwise the position of the first input that does not exist, all earlier ones existing |
| Merge.FindAbsent | merge.py:51-54 | the existence loop stops at exactly that first absent input |
| Merge.MergeVideos | merge.py:40-86 | fewer than two inputs (the empty list too) raises `ValueError` before any check or write; otherwise the first missing input raises `FileNotFoundError` and nothing is written; otherwise `downloads` exists, one veryfast concat run reads the list file of the inputs, the list file is removed whatever the outcome, and success returns the resolved output path |
| Configs.IntEnv | configs.py:14-16 | an integer iff the variable is set and consists of ASCII digits only (so `-5`, `12a`, empty and unset give none) |
| Configs.IntEnvRoundTrip | configs.py:14-16 | the decimal text of a natural number reads back as that number |
| Configs.IntEnvRejects | configs.py:14-16 | `-5`, `12a` and an unset variable give none |
| Configs.IntEnvAgrees | configs.py:16 | over the characters the model knows, the code as written raises exactly for a value that passes `isdigit` and holds one of the modelled digit symbols (superscript, subscript, circled and similar), and agrees with `IntEnv` everywhere else |
| Configs.SuperscriptApiIdRaises | configs.py:16 | `API_ID=²` passes `isdigit` and then makes `int` raise |
| Configs.MissingAmongExact | configs.py:26-32 | the collected list holds exactly the missing keys, in the order they were checked |
| Configs.RequiredKeyChecks | configs.py:27-31 | `API_ID` is missing iff `_int_env` gives none; `API_HASH` and `BOT_TOKEN` are missing iff unset or empty |
| Configs.MissingAmongRequired | configs.py:26-32 | the missing list is API_ID, API_HASH, BOT_TOKEN filtered by those checks, in that order |
| Configs.Validate | configs.py:25-37 | raises iff some required key is missing, with the message listing exactly the missing keys in order |
| Configs.ValidatePassesWhenComplete | configs.py:33-37 | nothing is reported iff the API id is all digits and the hash and token are non-empty |
| Configs.AllMissingInOrder | configs.py:27-32 | a non-numeric id, an empty hash and an empty token are all reported, in the fixed order |
| Configs.OnlyTokenMissing | configs.py:27-32 | an unset token alone is reported as missing |
| Params.ParseCrf | main.py:222-223 | never a usage reply; at most one word gives crf 23 |
| Params.CrfRoundTrip | main.py:222-223 | `/send <n>` reads back crf n |
| Params.ParseIntArg | main.py:274-279 | a usage reply iff there are fewer than two words; a bad second word raises `int`'s error |
| Params.IntArgRoundTrip | main.py:298-303 | `/send <n>` reads back n |
| Params.ParseFactor | main.py:286-291 | a usage reply iff there are fewer than two words; a bad second word raises `float`'s error |
| Params.FactorRoundTrip | main.py:286-291 | `/send <n>` reads back the float n |
| Params.FactorDecimal | main.py:286-291 | `/send W.F` (such as `/send 2.0`, `/send 0.5`, `/send .5`) reads back the value of the numeral W.F |
| Speed.DecimalNumeral | main.py:291 | `float` of digits with one decimal point and at least one digit is the value of that numeral |
| Params.FactorInfinity | main.py:291 | `/send inf` reads back positive infinity |
| Params.ParseTrim | main.py:262-267 | a usage reply iff there are fewer than three words; otherwise two whole words |
| Params.TrimRoundTrip | main.py:262-267 | `/send START END` reads back (START, END) |
| Params.FieldsOfBars | main.py:237 | splitting on the bar character and stripping each part recovers the fields |
| Params.ParseWatermark | main.py:233-241 | never a parse error; a usage reply iff the text after the first space is blank; the colour is never empty |
| Params.WatermarkRoundTrip | main.py:233-241 | `/send` with text, colour, size and position separated by bars reads back those four values |
| Params.WatermarkDefaults | main.py:238-241 | a text alone gets white, 36 and center |
| Params.WatermarkOfFields | main.py:233-241 | four bar-separated fields are read as they are, except that an empty colour becomes white and a size that is not a decimal number (`abc`, `-5`) becomes 36 |
| Params.WatermarkAgrees | main.py:240 | over the characters the model knows, the code as written raises exactly when the size field passes `isdigit` and holds one of the modelled digit symbols, and agrees with `ParseWatermark` everywhere else |
| Params.SuperscriptSizeRaises | main.py:240 | a size of `²` passes `isdigit` and then makes `int` raise, where the default 36 is evidently intended |
| Params.ParseMoving | main.py:249-255 | never a parse error; a usage reply iff the text after the first space is blank; one field gives mode left-right |
| Params.MovingRoundTrip | main.py:249-255 | `/send` with a text and a mode separated by a bar reads back both values |
| Params.JobDirNameParts | main.py:63 | a job directory name splits on `_` into the user id's decimal text (which reads back as the id) and ten lower-case hex digits |
| Params.JobDirsOfUsersDiffer | main.py:62-63 | two different users never share a job directory |
| Bot.ActionForData | main.py:145-180 | every action's button selects that action |
| Bot.DataForAction | main.py:145-180 | a callback selects an action only if it is exactly that action's button |
| Bot.MenuSelectsNothing | main.py:135-142 | the four menu callbacks select no action |
| Bot.PlanRefusals | main.py:220-322 | thumbnail and audio extraction always run; compress never gives a usage reply; the two watermarks never fail to parse |
| Bot.PlanCompressDefault | main.py:221-223 | a bare `/send` compresses at crf 23 |
| Bot.RunJob | main.py:220-322 | a job is refused with nothing run exactly when the moving watermark's `WM_FONT_SIZE` is not an integer, the angle is not 90/180/270, or the speed factor is not positive and finite (with the operation's error); otherwise the single-command jobs, the moving watermark and the rotation run exactly their command once, trimming runs the stream copy and then the re-encode exactly when the copy failed, and the speed change runs once with a valid atempo chain; the result is the output file exactly when the last run succeeded, and the command's failure otherwise |
| Bot.SendSingle | main.py:218-346 | a usage reply or a parse error runs nothing; otherwise the job runs as `RunJob` states and the reply is the answer to its result; no file or directory changes |
| Bot.SingleStepReply | main.py:218-346 | the file is sent exactly when the job was not refused and its last run succeeded (and it is the job's output file); a refusal is answered with its error, a failed last run with the command's failure |
| Bot.ReplaceStep | main.py:331-340 | the mux of the stored target and the downloaded audio runs with the stream copy first and the re-encode after it exactly when the copy failed; the reply is `replaced_audio.mp4` exactly when the last run succeeded, the command's failure otherwise |
| Bot.Bot.constructor | main.py:42-59 | no sessions, and `TMP_ROOT` created |
| Bot.Bot.OnCallback | main.py:130-186 | an action's button replaces the user's record with a fresh one holding only that action (an empty `collected` for merge); every other callback changes nothing; well-formed records stay well formed |
| Bot.Bot.OnSend | main.py:190-349 | three early returns change nothing (no record, a merge in progress, not replying to a video/document); past them exactly the job directory is made; a failed download runs nothing; single-step actions leave `USER_STATE` unchanged; the first audio-replacement step stores the target and runs nothing; the second pops it whatever the outcome, and the mux runs and is answered as `ReplaceStep` states; a single-step `/send` ends as `SendSingle` states |
| Bot.Bot.OnAdd | main.py:351-377 | outside a merge, or not replying to a video/document, nothing changes; otherwise the job directory is made and a successful download appends exactly that path to `collected` |
| Bot.Bot.OnDone | main.py:379-407 | outside a merge, or with fewer than two collected files, nothing changes (the list included); otherwise one merge runs at crf 22 over the collected files, its list file is removed, and the user's record is dropped whatever the outcome; the reply is the merged file exactly when the run succeeded |

## Left out

- Chat I/O is not modelled: messages, status edits, uploads, keyboards, the `/start` and `/menu` handlers and callback text. Downloads enter as a `Result` parameter.
- The `Error: ...` reply of `send_handler` (main.py:344-346) is modelled as the `Failed` reply. Logging is not modelled.
- `cleanup_dir` and its scheduling (main.py:67-74, 349, 377, 407) are left out. It is a fire-and-forget timer that deletes the job directory 20 or 30 seconds later. The files it deletes are not modelled as disappearing. So the model does not show two failures it causes: `/add` stores a file in its job directory, which is deleted after 20 seconds (main.py:377), so a later `/done` finds the file missing; and the first audio-replacement step stores a target inside a job directory deleted after 30 seconds (main.py:349), so a late second step finds the target gone.
- The `uuid4` value and the event loop's clock are parameters, not random or timed.
- main.py:39-46 is left out: it reads its own copy of the configuration and raises at import time. The validation modelled is `configs.validate`.
- The import-time `mkdir` of `TMP_DIR` in `ffmpeg_tools.py` and `merge.py` is not modelled. The model assumes the directory exists: `merge.py` creates it again before writing, and the `ffmpeg_tools.py` list file is written there.
- The `__main__` blocks and the Pyrogram client setup are not modelled.
- Process spawning, output capture, the 600-second timeout and `kill` are not modelled. Each run is an arbitrary success or failure.
- What ffmpeg does with the filters is not modelled. Commands are opaque argument lists.
- Python float arithmetic is left out. The speed factor and its stages are exact reals. Rounding at extreme magnitudes is not modelled, nor are exponent forms such as `1e3` in `float()`. How a stage is printed is a parameter.
- Unicode is left out: `lower` and `int` handle ASCII only. `isdigit` knows ASCII digits and a listed set of digit symbols (superscripts, subscripts, circled and similar Numeric_Type=Digit characters) that `int` refuses.
- Configs.IntEnvAgrees: holds over the modelled characters only. Non-ASCII decimal digits such as `٣` or the full-width `３`, which both `isdigit` and `int` accept, are treated as non-digits. Numeric_Type=Digit characters outside the listed ranges are not modelled.
- Params.WatermarkAgrees: holds over the modelled characters only, for the same reason as Configs.IntEnvAgrees.
- Text.ParseInt: does not accept the underscores `int` allows between digits (`int("1_080") == 1080`), nor non-ASCII decimal digits. So Params.ParseIntArg, Params.ParseCrf and FfmpegTools.MovingFontSize refuse such text where the source accepts it. `_int_env` and the watermark size are unaffected, since `isdigit` already rejects `_`.
- `Path.resolve` is modelled as joining a relative path to the working directory. It does not normalise `..` or follow links. `merge.py` checks that each input exists on the path as given (merge.py:53), but writes the resolved path into the list file (merge.py:38). The model checks existence on that same path as given. Because resolution is only a join, it cannot show a path that exists as given but resolves elsewhere.
- ConcatList.ListLines does not escape single quotes in paths, exactly as both list writers do not. A path containing `'` therefore gives a line the concat demuxer reads differently. The model states the line format and does not claim a read-back for such paths.
- FfmpegTools.ChangeSpeed refuses `inf` and `nan` (see Findings). As written, `inf` never leaves the halving loop, and `nan` passes every comparison and runs ffmpeg with `atempo=nan`.
- Bot.RunJob does not state which stages the speed command chains; that is stated by FfmpegTools.ChangeSpeed.
- Concurrency between handlers touching `USER_STATE` is left out. Each handler runs to completion as one step.

## Findings

| source | as written | input that shows it | evidently intended | confidence | as-written member | corrected member |
|---|---|---|---|---|---|---|
| bot/utils/ffmpeg_tools.py:170-175 | `remaining <= 0` is the only guard, then `while remaining > 2.0: remaining /= 2.0` | `/send inf` with speed selected: `float("inf")` passes the guard and halving infinity gives infinity, so the handler never returns | refuse a factor that is not finite with `ValueError`, like a non-positive one | not executed; high | Speed.InfinityNeverLeavesHalvingLoop | Speed.AtempoChain |
| configs.py:16 | `int(val) if val and val.isdigit() else None` | `API_ID=²`: `str.isdigit` accepts `²` but `int("²")` raises `ValueError` at import | digit-only values give an int and everything else gives `None`, never an exception | not executed; medium | Configs.SuperscriptApiIdRaises | Configs.IntEnv |
| main.py:240 | `int(parts[2]) if ... parts[2].isdigit() else 36` | a watermark `/send` whose third bar-separated field is `²`: `int("²")` raises and the user gets an error reply | a size that is not a plain number falls back to 36 | not executed; medium | Params.SuperscriptSizeRaises | Params.ParseWatermark |
