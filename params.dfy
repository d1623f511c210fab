/** How `main.py` reads the text of a `/send` command for each action, and
    how it names the working directory of a job. */
module Params {
  import opened Common
  import opened Text
  import opened Speed

  /** The reading of a command's arguments: the handler answers with its usage
      text, an exception is raised, or the arguments are there. */
  datatype Parsed<+T> = Usage | Bad(error: Error) | Args(value: T)

  // ---------------------------------------------------------------------------
  // compress: `/send [CRF]`

  const DefaultCrf := 23

  /** `message.text.split(maxsplit=1)`; the crf is the rest of the text read by
      `int()`, or 23 when there is none. */
  function ParseCrf(msg: string): (r: Parsed<int>)
    ensures r != Usage
    ensures |Words(msg)| <= 1 ==> r == Args(DefaultCrf)
    ensures |Words(msg)| > 1 ==> r != Args(DefaultCrf) || ParseInt(Strip(SplitOnce(msg)[1])) == Some(DefaultCrf)
  {
    var parts := SplitOnce(msg);
    if |parts| > 1 then
      var arg := Strip(parts[1]);
      match ParseInt(arg)
      case Some(c) => Args(c)
      case None => Bad(IntError(arg))
    else Args(DefaultCrf)
  }

  /** A crf typed after the command is the crf used. */
  lemma CrfRoundTrip(cmd: string, crf: int)
    requires IsWord(cmd)
    ensures ParseCrf(cmd + " " + IntToString(crf)) == Args(crf)
  {
    IntToStringWord(crf);
    SplitOnceWordRest(cmd, IntToString(crf));
    TrimmedStrip(IntToString(crf));
    ParseIntToString(crf);
  }

  // ---------------------------------------------------------------------------
  // resize, rotate and speed: `/send VALUE`

  /** The second word read by `int()`; fewer than two words is a usage reply. */
  function ParseIntArg(msg: string): (r: Parsed<int>)
    ensures r == Usage <==> |Words(msg)| < 2
    ensures r.Bad? ==> r.error == IntError(Words(msg)[1])
  {
    var parts := Words(msg);
    if |parts| < 2 then Usage
    else match ParseInt(parts[1])
      case Some(n) => Args(n)
      case None => Bad(IntError(parts[1]))
  }

  /** The second word read by `float()`. */
  function ParseFactor(msg: string): (r: Parsed<PyFloat>)
    ensures r == Usage <==> |Words(msg)| < 2
    ensures r.Bad? ==> r.error == FloatError(Words(msg)[1])
  {
    var parts := Words(msg);
    if |parts| < 2 then Usage
    else match ParseFloat(parts[1])
      case Some(x) => Args(x)
      case None => Bad(FloatError(parts[1]))
  }

  /** The message of the `ValueError` that `float(s)` raises. */
  function FloatError(s: string): Error {
    ValueError("could not convert string to float: '" + s + "'")
  }

  lemma {:induction false} TwoWords(cmd: string, arg: string)
    requires IsWord(cmd) && IsWord(arg)
    ensures Words(cmd + " " + arg) == [cmd, arg]
  {
    assert Unwords([cmd, arg]) == cmd + " " + arg by {
      assert [cmd, arg][1..] == [arg];
    }
    WordsOfUnwords([cmd, arg]);
  }

  /** A whole number typed after the command is the height or angle used. */
  lemma IntArgRoundTrip(cmd: string, n: int)
    requires IsWord(cmd)
    ensures ParseIntArg(cmd + " " + IntToString(n)) == Args(n)
  {
    IntToStringWord(n);
    TwoWords(cmd, IntToString(n));
    ParseIntToString(n);
  }

  /** A whole number typed as the speed factor is that factor. */
  lemma FactorRoundTrip(cmd: string, n: int)
    requires IsWord(cmd)
    ensures ParseFactor(cmd + " " + IntToString(n)) == Args(Finite(n as real))
  {
    IntToStringWord(n);
    TwoWords(cmd, IntToString(n));
    ParseFloatOfInt(n);
  }

  /** A factor written with a decimal point (`/send 2.0`, `/send 0.5`) is the
      value of that numeral. */
  lemma FactorDecimal(cmd: string, whole: string, frac: string)
    requires IsWord(cmd)
    requires AllDigits(whole) && AllDigits(frac) && |whole| + |frac| > 0
    ensures ParseFactor(cmd + " " + (whole + "." + frac)) == Args(Finite(DecimalValue(whole, frac)))
  {
    DecimalNumeral(whole, frac);
    TwoWords(cmd, whole + "." + frac);
  }

  /** `inf` is read as a factor; it is not rejected here. */
  lemma FactorInfinity(cmd: string)
    requires IsWord(cmd)
    ensures ParseFactor(cmd + " " + "inf") == Args(PosInf)
  {
    var msg := cmd + " " + "inf";
    InfWords(cmd);
    assert Words(msg)[1] == "inf";
    ParseInf();
    assert ParseFloat(Words(msg)[1]) == Some(PosInf);
  }

  lemma InfWords(cmd: string)
    requires IsWord(cmd)
    ensures Words(cmd + " " + "inf") == [cmd, "inf"]
  {
    assert IsWord("inf") by {
      assert forall k | 0 <= k < 3 :: !IsSpace("inf"[k]);
    }
    TwoWords(cmd, "inf");
  }

  // ---------------------------------------------------------------------------
  // trim: `/send START END`

  /** The second and third words; fewer than three words is a usage reply. */
  function ParseTrim(msg: string): (r: Parsed<(string, string)>)
    ensures r == Usage <==> |Words(msg)| < 3
    ensures r.Args? ==> IsWord(r.value.0) && IsWord(r.value.1)
  {
    var parts := Words(msg);
    if |parts| < 3 then Usage else Args((parts[1], parts[2]))
  }

  /** A start and an end typed after the command are the ones used. */
  lemma TrimRoundTrip(cmd: string, start: string, end: string)
    requires IsWord(cmd) && IsWord(start) && IsWord(end)
    ensures ParseTrim(cmd + " " + start + " " + end) == Args((start, end))
  {
    var ws := [cmd, start, end];
    assert Unwords(ws) == cmd + " " + start + " " + end by {
      assert ws[1..] == [start, end];
      assert ws[1..][1..] == [end];
      assert Unwords(ws[1..]) == start + " " + end;
    }
    WordsOfUnwords(ws);
  }

  // ---------------------------------------------------------------------------
  // watermark: `/send TEXT | COLOR | SIZE | POSITION`, moving: `/send TEXT | MODE`

  /** `(message.text.partition(" ")[2] or "").strip()` */
  function SendParams(msg: string): string {
    Strip(AfterFirst(msg, ' '))
  }

  /** `[p.strip() for p in params.split("|")]` */
  function Fields(params: string): (fs: seq<string>)
    ensures |fs| == |SplitOn(params, '|')| >= 1
  {
    StripEach(SplitOn(params, '|'))
  }

  function StripEach(parts: seq<string>): (r: seq<string>)
    ensures |r| == |parts|
  {
    if parts == [] then [] else [Strip(parts[0])] + StripEach(parts[1..])
  }

  datatype WatermarkArgs = WatermarkArgs(text: string, color: string, size: int, position: string)

  const DefaultColor := "white"
  const DefaultSize := 36
  const DefaultPosition := "center"

  /** The watermark arguments as the source reads them: the size goes to
      `int()` whenever it passes `isdigit`, which a digit symbol such as the
      superscript two does, so such a size raises. */
  function ParseWatermarkAsWritten(msg: string): Parsed<WatermarkArgs> {
    var params := SendParams(msg);
    if params == "" then Usage
    else
      var fs := Fields(params);
      var color := if |fs| > 1 && fs[1] != "" then fs[1] else DefaultColor;
      var position := if |fs| > 3 then fs[3] else DefaultPosition;
      if |fs| > 2 && PyIsDigit(fs[2]) then
        match ParseInt(fs[2])
        case Some(n) => Args(WatermarkArgs(fs[0], color, n, position))
        case None => Bad(IntError(fs[2]))
      else Args(WatermarkArgs(fs[0], color, DefaultSize, position))
  }

  /** The watermark arguments as intended: a size that is not a decimal number
      falls back to 36 like any other non-numeric size. */
  function ParseWatermark(msg: string): (r: Parsed<WatermarkArgs>)
    ensures !r.Bad?
    ensures r == Usage <==> SendParams(msg) == ""
    ensures r.Args? ==> r.value.color != "" && r.value.size >= 0
  {
    var params := SendParams(msg);
    if params == "" then Usage
    else
      var fs := Fields(params);
      var color := if |fs| > 1 && fs[1] != "" then fs[1] else DefaultColor;
      var size := if |fs| > 2 && IsDigits(fs[2]) then DigitsValue(fs[2]) else DefaultSize;
      var position := if |fs| > 3 then fs[3] else DefaultPosition;
      Args(WatermarkArgs(fs[0], color, size, position))
  }

  /** The source raises exactly when the size field passes `isdigit` without
      being decimal; otherwise it reads what the intended parser reads. */
  lemma WatermarkAgrees(msg: string)
    ensures ParseWatermarkAsWritten(msg).Bad? <==>
      SendParams(msg) != "" && |Fields(SendParams(msg))| > 2
      && PyIsDigit(Fields(SendParams(msg))[2]) && !IsDigits(Fields(SendParams(msg))[2])
    ensures !ParseWatermarkAsWritten(msg).Bad? ==> ParseWatermarkAsWritten(msg) == ParseWatermark(msg)
  {
    var params := SendParams(msg);
    if params != "" {
      var fs := Fields(params);
      if |fs| > 2 {
        DigitsArePyDigits(fs[2]);
        if PyIsDigit(fs[2]) {
          ParseIntOfPyDigits(fs[2]);
          if IsDigits(fs[2]) {
            ParseIntOfDigits(fs[2]);
          }
        }
      }
    }
  }

  /** A field a user can type between bars: no bar, no whitespace at its ends. */
  predicate Field(s: string) {
    '|' !in s && Trimmed(s)
  }

  /** Fields as the usage text writes them: separated by ` | `. */
  function Bars(fs: seq<string>): string {
    JoinWith(fs, " | ")
  }

  /** The text after the command word is what `partition` and `strip` leave. */
  lemma {:induction false} SendParamsOf(cmd: string, params: string)
    requires IsWord(cmd) && params != [] && Trimmed(params)
    ensures SendParams(cmd + " " + params) == params
  {
    assert ' ' !in cmd by {
      assert forall k | 0 <= k < |cmd| :: cmd[k] != ' ';
    }
    assert cmd + " " + params == cmd + [' '] + params;
    AfterFirstPrefix(cmd, params, ' ');
    TrimmedStrip(params);
  }

  /** Splitting fields written with bars (after an optional leading space)
      and stripping each part gives the fields back. */
  lemma {:induction false} SplitBars(lead: string, fs: seq<string>)
    requires lead == "" || lead == " "
    requires |fs| >= 1 && forall k | 0 <= k < |fs| :: Field(fs[k])
    ensures StripEach(SplitOn(lead + Bars(fs), '|')) == fs
    decreases |fs|
  {
    LeadField(lead, fs[0]);
    if |fs| == 1 {
      assert lead + Bars(fs) == lead + fs[0];
      SplitOnFree(lead + fs[0], '|');
    } else {
      var rest := Bars(fs[1..]);
      BarsCons(lead, fs);
      SplitOnPrefix(lead + fs[0] + " ", " " + rest, '|');
      SplitBars(" ", fs[1..]);
      assert ([lead + fs[0] + " "] + SplitOn(" " + rest, '|'))[1..] == SplitOn(" " + rest, '|');
      HeadTail(fs);
    }
  }

  /** A field after an optional space, with or without a space after it. */
  lemma LeadField(lead: string, f: string)
    requires lead == "" || lead == " "
    requires Field(f)
    ensures Strip(lead + f) == f && Strip(lead + f + " ") == f
    ensures '|' !in lead + f && '|' !in lead + f + " "
  {
    StripPadded(f);
    TrimmedStrip(f);
    if lead == "" {
      assert lead + f == f;
    }
  }

  lemma BarsCons(lead: string, fs: seq<string>)
    requires |fs| > 1
    ensures lead + Bars(fs) == (lead + fs[0] + " ") + ['|'] + (" " + Bars(fs[1..]))
  {
    assert Bars(fs) == fs[0] + " | " + Bars(fs[1..]);
  }

  /** Fields written with bars read back as those fields. */
  lemma FieldsOfBars(fs: seq<string>)
    requires |fs| >= 1 && forall k | 0 <= k < |fs| :: Field(fs[k])
    ensures Fields(Bars(fs)) == fs
  {
    SplitBars("", fs);
    assert "" + Bars(fs) == Bars(fs);
  }

  /** Fields written with bars, the last not empty, end where the last does. */
  lemma {:induction false} BarsEnd(fs: seq<string>)
    requires |fs| >= 1 && fs[|fs| - 1] != ""
    ensures Bars(fs) != "" && Bars(fs)[|Bars(fs)| - 1] == fs[|fs| - 1][|fs[|fs| - 1]| - 1]
  {
    if |fs| > 1 {
      var rest := Bars(fs[1..]);
      BarsEnd(fs[1..]);
      assert Bars(fs) == fs[0] + " | " + rest;
    }
  }

  /** Fields written with bars, the first and last not empty, are left alone
      by `strip`. */
  lemma BarsTrimmed(fs: seq<string>)
    requires |fs| >= 1 && forall k | 0 <= k < |fs| :: Field(fs[k])
    requires fs[0] != "" && fs[|fs| - 1] != ""
    ensures Bars(fs) != "" && Trimmed(Bars(fs))
  {
    BarsEnd(fs);
    if |fs| > 1 {
      assert Bars(fs) == fs[0] + " | " + Bars(fs[1..]);
    }
  }

  /** A number written in decimal is a field. */
  lemma NatField(n: nat)
    ensures Field(NatToString(n)) && NatToString(n) != ""
  {
    var s := NatToString(n);
    assert forall k | 0 <= k < |s| :: s[k] != '|' && !IsSpace(s[k]);
  }

  /** Fields typed after the command word with bars between them are the
      fields the handlers read. */
  lemma ReadBack(cmd: string, fs: seq<string>)
    requires IsWord(cmd)
    requires |fs| >= 1 && forall k | 0 <= k < |fs| :: Field(fs[k])
    requires fs[0] != "" && fs[|fs| - 1] != ""
    ensures SendParams(cmd + " " + Bars(fs)) != ""
    ensures Fields(SendParams(cmd + " " + Bars(fs))) == fs
  {
    BarsTrimmed(fs);
    SendParamsOf(cmd, Bars(fs));
    FieldsOfBars(fs);
  }

  /** Four fields typed as the usage text shows are the four arguments used. */
  lemma WatermarkRoundTrip(cmd: string, text: string, color: string, size: nat, position: string)
    requires IsWord(cmd)
    requires Field(text) && text != ""
    requires Field(color) && color != ""
    requires Field(position) && position != ""
    ensures ParseWatermark(cmd + " " + Bars([text, color, NatToString(size), position]))
      == Args(WatermarkArgs(text, color, size, position))
  {
    NatField(size);
    var fs := [text, color, NatToString(size), position];
    FourFields(fs);
    WatermarkOfFields(cmd, fs);
  }

  lemma FourFields(fs: seq<string>)
    requires |fs| == 4 && Field(fs[0]) && Field(fs[1]) && Field(fs[2]) && Field(fs[3])
    ensures forall k | 0 <= k < |fs| :: Field(fs[k])
  {
  }

  /** Four fields are read as they are, except that an empty colour becomes
      white and a size that is not a decimal number (`abc`, `-5`, `4.5`)
      becomes 36. */
  lemma WatermarkOfFields(cmd: string, fs: seq<string>)
    requires IsWord(cmd)
    requires |fs| == 4 && forall k | 0 <= k < |fs| :: Field(fs[k])
    requires fs[0] != "" && fs[3] != ""
    ensures ParseWatermark(cmd + " " + Bars(fs))
      == Args(WatermarkArgs(fs[0],
                            if fs[1] == "" then DefaultColor else fs[1],
                            if IsDigits(fs[2]) then DigitsValue(fs[2]) else DefaultSize,
                            fs[3]))
  {
    ReadBack(cmd, fs);
  }

  /** Text alone gets the white colour, size 36 and the centre position. */
  lemma WatermarkDefaults(cmd: string, text: string)
    requires IsWord(cmd) && Field(text) && text != ""
    ensures ParseWatermark(cmd + " " + text) == Args(WatermarkArgs(text, DefaultColor, DefaultSize, DefaultPosition))
  {
    assert Bars([text]) == text;
    ReadBack(cmd, [text]);
    assert Fields(SendParams(cmd + " " + text)) == [text];
  }

  /** With a superscript digit as its size the source's parser raises, while
      the intended one falls back to size 36. */
  lemma SuperscriptSizeRaises(cmd: string, text: string)
    requires IsWord(cmd) && Field(text) && text != ""
    ensures ParseWatermarkAsWritten(cmd + " " + Bars([text, DefaultColor, "\U{b2}"])) == Bad(IntError("\U{b2}"))
    ensures ParseWatermark(cmd + " " + Bars([text, DefaultColor, "\U{b2}"]))
      == Args(WatermarkArgs(text, DefaultColor, DefaultSize, DefaultPosition))
  {
    var sup := "\U{b2}";
    var msg := cmd + " " + Bars([text, DefaultColor, sup]);
    assert Field(DefaultColor) by {
      assert forall k | 0 <= k < |DefaultColor| :: DefaultColor[k] != '|';
    }
    assert Field(sup);
    ReadBack(cmd, [text, DefaultColor, sup]);
    var p := Fields(SendParams(msg));
    assert |p| == 3 && p[0] == text && p[1] == DefaultColor && p[2] == sup;
    SuperscriptTwoIsDigitSymbol();
    assert !IsDigit(sup[0]);
    ParseIntOfPyDigits(sup);
    assert ParseInt(p[2]) == None;
  }

  datatype MovingArgs = MovingArgs(text: string, mode: string)

  const DefaultMode := "left-right"

  /** The text and the mode, which defaults to left-right when absent. */
  function ParseMoving(msg: string): (r: Parsed<MovingArgs>)
    ensures !r.Bad?
    ensures r == Usage <==> SendParams(msg) == ""
    ensures r.Args? && |Fields(SendParams(msg))| < 2 ==> r.value.mode == DefaultMode
  {
    var params := SendParams(msg);
    if params == "" then Usage
    else
      var fs := Fields(params);
      Args(MovingArgs(fs[0], if |fs| > 1 then fs[1] else DefaultMode))
  }

  /** A text and a mode typed as the usage text shows are the ones used. */
  lemma MovingRoundTrip(cmd: string, text: string, mode: string)
    requires IsWord(cmd)
    requires Field(text) && text != ""
    requires Field(mode) && mode != ""
    ensures ParseMoving(cmd + " " + Bars([text, mode])) == Args(MovingArgs(text, mode))
  {
    ReadBack(cmd, [text, mode]);
  }

  // ---------------------------------------------------------------------------
  // make_job_dir

  /** `uuid.uuid4().hex`: 32 lower-case hexadecimal digits. */
  predicate IsUuidHex(hex: string) {
    |hex| == 32 && forall k | 0 <= k < |hex| :: IsLowerHex(hex[k])
  }

  /** `<user id>_<first 10 hex digits of the uuid>` */
  function JobDirName(user: int, hex: string): string
    requires IsUuidHex(hex)
  {
    IntToString(user) + "_" + hex[..10]
  }

  /** `TMP_ROOT / JobDirName(...)` */
  function JobDir(root: Path, user: int, hex: string): Path
    requires IsUuidHex(hex)
  {
    PathJoin(root, JobDirName(user, hex))
  }

  lemma IntToStringUnderscoreFree(i: int)
    ensures '_' !in IntToString(i)
  {
    var digits := NatToString(if i < 0 then -i else i);
    assert forall k | 0 <= k < |digits| :: digits[k] != '_';
    if i < 0 {
      assert IntToString(i) == "-" + digits;
    }
  }

  lemma HexUnderscoreFree(hex: string)
    requires IsUuidHex(hex)
    ensures '_' !in hex[..10]
  {
    assert forall k | 0 <= k < 10 :: hex[..10][k] == hex[k] && hex[k] != '_';
  }

  /** A job directory's name splits at its only underscore into the user id,
      which reads back as that id, and ten hexadecimal digits. */
  lemma JobDirNameParts(user: int, hex: string)
    requires IsUuidHex(hex)
    ensures SplitOn(JobDirName(user, hex), '_') == [IntToString(user), hex[..10]]
    ensures ParseInt(IntToString(user)) == Some(user)
    ensures |hex[..10]| == 10 && forall k | 0 <= k < 10 :: IsLowerHex(hex[..10][k])
  {
    var id := IntToString(user);
    var suffix := hex[..10];
    assert SplitOn(JobDirName(user, hex), '_') == [id, suffix] by {
      IntToStringUnderscoreFree(user);
      HexUnderscoreFree(hex);
      assert JobDirName(user, hex) == id + ['_'] + suffix;
      SplitOnPrefix(id, suffix, '_');
      SplitOnFree(suffix, '_');
    }
    ParseIntToString(user);
  }

  /** Two users never share a job directory. */
  lemma JobDirsOfUsersDiffer(root: Path, user1: int, hex1: string, user2: int, hex2: string)
    requires IsUuidHex(hex1) && IsUuidHex(hex2)
    requires user1 != user2
    ensures JobDir(root, user1, hex1) != JobDir(root, user2, hex2)
  {
    var n := |root| + 1;
    assert JobDirName(user1, hex1) == JobDir(root, user1, hex1)[n..];
    assert JobDirName(user2, hex2) == JobDir(root, user2, hex2)[n..];
    JobDirNameParts(user1, hex1);
    JobDirNameParts(user2, hex2);
  }
}
