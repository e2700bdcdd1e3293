/** The per-file log the harness writes beside each example it runs: its name
    (stem, date, time, an `_ERROR` mark for a failed launch) and its text. */
module Logs {
  import opened Wrappers
  import opened Text
  import opened Clock
  import opened Classify

  // ---------------------------------------------------------------------------
  // Log file names

  /** `f"{stem}_{date_str}_{time_str}.txt"`, or `..._ERROR.txt` for the log of
      a file whose run raised. */
  function LogName(stem: string, t: Timestamp, error: bool): string {
    stem + "_" + DateText(t) + "_" + TimeText(t) + (if error then "_ERROR" else "") + ".txt"
  }

  /** The fields a log name carries; the clock enters only to the second. */
  datatype NameParts = NameParts(
    stem: string,
    year: nat, month: nat, day: nat, hour: nat, minute: nat, second: nat,
    error: bool)

  function PartsOf(stem: string, t: Timestamp, error: bool): NameParts {
    NameParts(stem, t.year, t.month, t.day, t.hour, t.minute, t.second, error)
  }

  /** Reads a log name back into its fields; `None` when it is not one. */
  function ParseLogName(name: string): Option<NameParts> {
    var error := |name| >= 30 && name[|name| - 10..] == "_ERROR.txt";
    var tailLength := if error then 30 else 24;
    if |name| < tailLength || name[|name| - 4..] != ".txt" then None
    else
      var start := |name| - tailLength;
      var stamp := name[start..start + 20];
      if !IsStampText(stamp) then None
      else Some(NameParts(name[..start],
        DigitsValue(stamp[1..5]), DigitsValue(stamp[6..8]), DigitsValue(stamp[9..11]),
        DigitsValue(stamp[12..14]), DigitsValue(stamp[15..17]), DigitsValue(stamp[18..20]),
        error))
  }

  /** `_` + date + `_` + time: the stamp every log name carries. */
  function StampOf(t: Timestamp): string {
    "_" + DateText(t) + "_" + TimeText(t)
  }

  /** `_` + date + `_` + time, each made of three dash-separated digit
      fields of widths 4, 2, 2 and 2, 2, 2, is a stamp with the fields in place. */
  lemma StampFields(y: string, mo: string, d: string, h: string, mi: string, se: string)
    requires |y| == 4 && |mo| == 2 && |d| == 2 && |h| == 2 && |mi| == 2 && |se| == 2
    requires AllDigits(y) && AllDigits(mo) && AllDigits(d) && AllDigits(h) && AllDigits(mi) && AllDigits(se)
    ensures var s := "_" + (y + "-" + mo + "-" + d) + "_" + (h + "-" + mi + "-" + se);
      && IsStampText(s)
      && s[1..5] == y && s[6..8] == mo && s[9..11] == d
      && s[12..14] == h && s[15..17] == mi && s[18..20] == se
  {
    var date := y + "-" + mo + "-" + d;
    var time := h + "-" + mi + "-" + se;
    ThreeFields(y, mo, d, '-');
    ThreeFields(h, mi, se, '-');
    ThreeFields("", date, time, '_');
    var s := "_" + date + "_" + time;
    assert s == "" + "_" + date + "_" + time;
    assert s[1..11] == date && s[12..] == time;
    assert s[1..5] == date[..4] && s[6..8] == date[5..7] && s[9..11] == date[8..];
    assert s[12..14] == time[..2] && s[15..17] == time[3..5] && s[18..20] == time[6..];
  }

  lemma StampOfShape(t: Timestamp)
    ensures IsStampText(StampOf(t))
    ensures var s := StampOf(t);
      s[1..5] == Padded(t.year, 4) && s[6..8] == Padded(t.month, 2) && s[9..11] == Padded(t.day, 2)
      && s[12..14] == Padded(t.hour, 2) && s[15..17] == Padded(t.minute, 2) && s[18..20] == Padded(t.second, 2)
  {
    StampFields(Padded(t.year, 4), Padded(t.month, 2), Padded(t.day, 2),
                Padded(t.hour, 2), Padded(t.minute, 2), Padded(t.second, 2));
  }

  function Tail(error: bool): string {
    if error then "_ERROR.txt" else ".txt"
  }

  lemma LogNameSplit(stem: string, t: Timestamp, error: bool)
    ensures LogName(stem, t, error) == stem + StampOf(t) + Tail(error)
  {
  }

  /** The fields read back from a stamp are the clock fields it was made of. */
  lemma StampValues(t: Timestamp)
    ensures var s := StampOf(t);
      IsStampText(s)
      && DigitsValue(s[1..5]) == t.year && DigitsValue(s[6..8]) == t.month
      && DigitsValue(s[9..11]) == t.day && DigitsValue(s[12..14]) == t.hour
      && DigitsValue(s[15..17]) == t.minute && DigitsValue(s[18..20]) == t.second
  {
    StampOfShape(t);
    PaddedValue(t.year, 4);
    PaddedValue(t.month, 2);
    PaddedValue(t.day, 2);
    PaddedValue(t.hour, 2);
    PaddedValue(t.minute, 2);
    PaddedValue(t.second, 2);
  }

  /** A stem, any well-formed stamp and a tail read back as those three. */
  lemma ParseStemStamp(stem: string, stamp: string, error: bool)
    requires IsStampText(stamp)
    ensures ParseLogName(stem + stamp + Tail(error)) == Some(NameParts(stem,
      DigitsValue(stamp[1..5]), DigitsValue(stamp[6..8]), DigitsValue(stamp[9..11]),
      DigitsValue(stamp[12..14]), DigitsValue(stamp[15..17]), DigitsValue(stamp[18..20]),
      error))
  {
    var tail := Tail(error);
    var name := stem + stamp + tail;
    var start := |stem|;
    AppendAssoc(stem, stamp, tail);
    ConcatParts(stem, stamp + tail);
    ConcatParts(stamp, tail);
    assert |name| == start + 20 + |tail|;
    assert name[start..start + 20] == stamp;
    assert name[|name| - |tail|..] == tail;
    assert name[|name| - 4..] == ".txt";
    if !error {
      assert name[|name| - 10] == stamp[14];
    }
  }

  /** Reading a log name back gives the stem, the time to the second and the
      error mark it was built from. */
  lemma ParseLogNameRoundTrip(stem: string, t: Timestamp, error: bool)
    ensures ParseLogName(LogName(stem, t, error)) == Some(PartsOf(stem, t, error))
  {
    LogNameSplit(stem, t, error);
    StampValues(t);
    ParseStemStamp(stem, StampOf(t), error);
  }

  /** Two log names coincide exactly when stem, second and error mark do: two
      runs of one stem within one second overwrite each other's log. */
  lemma LogNameCollision(s1: string, t1: Timestamp, e1: bool, s2: string, t2: Timestamp, e2: bool)
    ensures LogName(s1, t1, e1) == LogName(s2, t2, e2) <==> s1 == s2 && SameSecond(t1, t2) && e1 == e2
  {
    if LogName(s1, t1, e1) == LogName(s2, t2, e2) {
      ParseLogNameRoundTrip(s1, t1, e1);
      ParseLogNameRoundTrip(s2, t2, e2);
    }
  }

  /** A name made of a stem, a stamp and a tail ends with that tail, found
      where it was put. */
  lemma OwnTail(stem: string, stamp: string, error: bool)
    requires IsStampText(stamp)
    ensures var name := stem + stamp + Tail(error);
      var n := 20 + |Tail(error)|;
      && |name| == |stem| + n
      && IsLogTail(name[|name| - n..]) && name[..|name| - n] == stem
      && name[|name| - 1] != '\n'
  {
    var tail := stamp + Tail(error);
    AppendAssoc(stem, stamp, Tail(error));
    ConcatParts(stem, tail);
    ConcatParts(stamp, Tail(error));
  }

  /** In such a name the tail length of the other kind of log finds no tail:
      it puts a digit or a '-' where the tail needs '_'. */
  lemma OtherTail(stem: string, stamp: string, error: bool)
    requires IsStampText(stamp)
    ensures var name := stem + stamp + Tail(error);
      var other := if error then 24 else 30;
      |name| >= other ==> !IsLogTail(name[|name| - other..])
  {
    var name := stem + stamp + Tail(error);
    var other := if error then 24 else 30;
    AppendAssoc(stem, stamp, Tail(error));
    ConcatParts(stem, stamp + Tail(error));
    ConcatParts(stamp, Tail(error));
    if |name| >= other {
      var bad := name[|name| - other..];
      if error {
        assert bad[0] == stamp[6];
      } else {
        assert bad[20..] == name[|name| - 10..];
        assert name[|name| - 10] == stamp[14];
      }
    }
  }

  /** A stem, a stamp and a tail make a name the pattern matches exactly when
      the stem holds no line feed. */
  lemma GeneratedIffStem(stem: string, stamp: string, error: bool)
    requires IsStampText(stamp)
    ensures IsGeneratedLogName(stem + stamp + Tail(error)) <==> '\n' !in stem
  {
    var name := stem + stamp + Tail(error);
    var n := 20 + |Tail(error)|;
    OwnTail(stem, stamp, error);
    OtherTail(stem, stamp, error);
    assert !(|name| >= 1 && name[|name| - 1] == '\n');
    if error {
      assert n == 30;
      assert EndsWithLogTail(name) <==> '\n' !in name[..|name| - 30];
    } else {
      assert n == 24;
      assert EndsWithLogTail(name) <==> '\n' !in name[..|name| - 24];
    }
  }

  /** Every log name the harness builds is matched by `generated_log_pattern`,
      so a later run drops it, provided the stem holds no line feed; a stem
      with a line feed yields a name the pattern misses. */
  lemma LogNameIsGenerated(stem: string, t: Timestamp, error: bool)
    ensures IsGeneratedLogName(LogName(stem, t, error)) <==> '\n' !in stem
  {
    LogNameSplit(stem, t, error);
    StampOfShape(t);
    GeneratedIffStem(stem, StampOf(t), error);
  }

  // ---------------------------------------------------------------------------
  // Log text

  /** The parts a run log is made of, in the order they are written. */
  datatype LogBlock =
    | Invocation(filePath: string)   // "Запуск команды:" and the command line
    | StartedAt(at: Timestamp)       // "Дата и время запуска:" and `str(now)`
    | OutputBanner                   // the ruled "ВЫВОД ПРОГРАММЫ:" heading
    | Stdout(out: string)            // "STDOUT:" block
    | Stderr(err: string)            // "STDERR:" block
    | ReturnCode(code: int)          // "Код возврата:" line

  function BlockRank(b: LogBlock): nat {
    match b
    case Invocation(_) => 0
    case StartedAt(_) => 1
    case OutputBanner => 2
    case Stdout(_) => 3
    case Stderr(_) => 4
    case ReturnCode(_) => 5
  }

  /** The blocks of the log of a file whose compiler run completed: the fixed
      head, then each optional block whose condition holds. */
  function LogBlocks(filePath: string, now: Timestamp, returnCode: int, out: string, err: string)
    : (bs: seq<LogBlock>)
    ensures |bs| >= 3 && bs[..3] == [Invocation(filePath), StartedAt(now), OutputBanner]
  {
    [Invocation(filePath), StartedAt(now), OutputBanner] + OptionalBlocks(returnCode, out, err)
  }

  function OptionalBlocks(returnCode: int, out: string, err: string): seq<LogBlock> {
    (if out != "" then [Stdout(out)] else [])
    + (if err != "" then [Stderr(err)] else [])
    + (if returnCode != 0 then [ReturnCode(returnCode)] else [])
  }

  lemma OptionalBlocksPresence(returnCode: int, out: string, err: string)
    ensures var bs := OptionalBlocks(returnCode, out, err);
      && (forall b :: b in bs ==> b.Stdout? || b.Stderr? || b.ReturnCode?)
      && (forall b :: b in bs && b.Stdout? ==> b == Stdout(out) && out != "")
      && (forall b :: b in bs && b.Stderr? ==> b == Stderr(err) && err != "")
      && (forall b :: b in bs && b.ReturnCode? ==> b == ReturnCode(returnCode) && returnCode != 0)
      && (out != "" ==> Stdout(out) in bs)
      && (err != "" ==> Stderr(err) in bs)
      && (returnCode != 0 ==> ReturnCode(returnCode) in bs)
  {
  }

  lemma OptionalBlocksOrder(returnCode: int, out: string, err: string)
    ensures var bs := OptionalBlocks(returnCode, out, err);
      forall i :: 0 <= i < |bs| - 1 ==> BlockRank(bs[i]) < BlockRank(bs[i + 1])
  {
  }

  /** STDOUT appears exactly when the program printed, STDERR exactly when it
      wrote errors, the return-code line exactly when the code is not 0, and
      each carries the run's own value. */
  lemma LogBlocksPresence(filePath: string, now: Timestamp, returnCode: int, out: string, err: string)
    ensures var bs := LogBlocks(filePath, now, returnCode, out, err);
      && (Stdout(out) in bs <==> out != "")
      && (Stderr(err) in bs <==> err != "")
      && (ReturnCode(returnCode) in bs <==> returnCode != 0)
      && (forall b :: b in bs && b.Stdout? ==> b.out == out)
      && (forall b :: b in bs && b.Stderr? ==> b.err == err)
      && (forall b :: b in bs && b.ReturnCode? ==> b.code == returnCode)
  {
    var head := [Invocation(filePath), StartedAt(now), OutputBanner];
    var rest := OptionalBlocks(returnCode, out, err);
    OptionalBlocksPresence(returnCode, out, err);
    assert forall b :: b in head ==> !b.Stdout? && !b.Stderr? && !b.ReturnCode?;
    assert forall b :: b in head + rest <==> b in head || b in rest;
  }

  /** The blocks come in the order the source writes them. */
  lemma LogBlocksOrder(filePath: string, now: Timestamp, returnCode: int, out: string, err: string)
    ensures var bs := LogBlocks(filePath, now, returnCode, out, err);
      forall i :: 0 <= i < |bs| - 1 ==> BlockRank(bs[i]) < BlockRank(bs[i + 1])
  {
    var head := [Invocation(filePath), StartedAt(now), OutputBanner];
    var rest := OptionalBlocks(returnCode, out, err);
    var bs := head + rest;
    OptionalBlocksPresence(returnCode, out, err);
    OptionalBlocksOrder(returnCode, out, err);
    forall i | 0 <= i < |bs| - 1 ensures BlockRank(bs[i]) < BlockRank(bs[i + 1]) {
      if i >= 3 {
        assert bs[i] == rest[i - 3] && bs[i + 1] == rest[i - 2];
      } else if i == 2 {
        assert bs[3] == rest[0] && rest[0] in rest;
      }
    }
  }

  const Rule: string := "=================================================="

  const InvocationHeading: string := "Запуск команды:\nintertonc --run "
  const StdoutHeading: string := "STDOUT:\n"
  const StderrHeading: string := "STDERR:\n"
  const ReturnCodeHeading: string := "\nКод возврата: "

  function RenderBlock(b: LogBlock): string {
    match b
    case Invocation(p) => InvocationHeading + p + "\n\n"
    case StartedAt(t) => "Дата и время запуска: " + Display(t) + "\n\n"
    case OutputBanner => Rule + "\n" + "ВЫВОД ПРОГРАММЫ:\n" + Rule + "\n"
    case Stdout(s) => StdoutHeading + s + "\n"
    case Stderr(s) => StderrHeading + s + "\n"
    case ReturnCode(c) => ReturnCodeHeading + IntText(c) + "\n"
  }

  function Render(bs: seq<LogBlock>): string {
    if bs == [] then "" else RenderBlock(bs[0]) + Render(bs[1..])
  }

  /** Rendering is block by block: the text of a concatenation is the
      concatenation of the texts. */
  lemma {:induction false} RenderAppend(a: seq<LogBlock>, b: seq<LogBlock>)
    ensures Render(a + b) == Render(a) + Render(b)
  {
    if a != [] {
      var first := RenderBlock(a[0]);
      assert (a + b)[0] == a[0];
      assert (a + b)[1..] == a[1..] + b;
      assert Render(a + b) == first + Render(a[1..] + b);
      RenderAppend(a[1..], b);
      AppendAssoc(first, Render(a[1..]), Render(b));
    } else {
      assert a + b == b;
    }
  }

  /** The text written to `<stem>_<date>_<time>.txt`. */
  function LogText(filePath: string, now: Timestamp, returnCode: int, out: string, err: string): string {
    Render(LogBlocks(filePath, now, returnCode, out, err))
  }

  /** The fixed head of every run log: command line, start time, banner. */
  function LogHead(filePath: string, now: Timestamp): string {
    Render([Invocation(filePath), StartedAt(now), OutputBanner])
  }

  /** A rendered list begins with the text of its first block. */
  lemma RenderCons(b: LogBlock, bs: seq<LogBlock>)
    ensures Render([b] + bs) == RenderBlock(b) + Render(bs)
  {
    assert ([b] + bs)[1..] == bs;
  }

  /** What follows the head starts with "STDOUT:" exactly when the program
      printed something. */
  lemma OptionalTextStdout(returnCode: int, out: string, err: string)
    ensures var text := Render(OptionalBlocks(returnCode, out, err));
      (|text| >= 8 && text[..8] == StdoutHeading) <==> out != ""
  {
    var bs := OptionalBlocks(returnCode, out, err);
    var text := Render(bs);
    var c := if returnCode != 0 then [ReturnCode(returnCode)] else [];
    if out != "" {
      var e := if err != "" then [Stderr(err)] else [];
      assert bs == [Stdout(out)] + (e + c);
      RenderCons(Stdout(out), e + c);
      assert text[..8] == StdoutHeading;
    } else if err != "" {
      assert bs == [Stderr(err)] + c;
      RenderCons(Stderr(err), c);
      assert text[3] == StderrHeading[3];
    } else if returnCode != 0 {
      assert bs == [ReturnCode(returnCode)] + [];
      RenderCons(ReturnCode(returnCode), []);
      assert text[0] == ReturnCodeHeading[0];
    } else {
      assert bs == [];
    }
  }

  /** The text is the fixed head followed by the optional blocks, and the
      head opens with the command line naming the file. */
  lemma LogTextHead(filePath: string, now: Timestamp, returnCode: int, out: string, err: string)
    ensures var text := LogText(filePath, now, returnCode, out, err);
      var head := LogHead(filePath, now);
      && text == head + Render(OptionalBlocks(returnCode, out, err))
      && |InvocationHeading + filePath| <= |head|
      && head[..|InvocationHeading + filePath|] == InvocationHeading + filePath
  {
    RenderAppend([Invocation(filePath), StartedAt(now), OutputBanner], OptionalBlocks(returnCode, out, err));
    RenderCons(Invocation(filePath), [StartedAt(now), OutputBanner]);
    var command := InvocationHeading + filePath;
    var head := LogHead(filePath, now);
    var after := "\n\n" + Render([StartedAt(now), OutputBanner]);
    AppendAssoc(command, "\n\n", Render([StartedAt(now), OutputBanner]));
    assert head == command + after;
    ConcatParts(command, after);
  }

  /** In the text itself: the log opens with the command line naming the file,
      and right after the fixed head comes "STDOUT:" exactly when the program
      printed something. */
  lemma LogTextStdout(filePath: string, now: Timestamp, returnCode: int, out: string, err: string)
    ensures var text := LogText(filePath, now, returnCode, out, err);
      var head := LogHead(filePath, now);
      && |head| <= |text| && text[..|head|] == head
      && |InvocationHeading + filePath| <= |text|
      && text[..|InvocationHeading + filePath|] == InvocationHeading + filePath
      && ((|text| >= |head| + 8 && text[|head|..|head| + 8] == StdoutHeading) <==> out != "")
  {
    LogTextHead(filePath, now, returnCode, out, err);
    OptionalTextStdout(returnCode, out, err);
    HeadThenRest(LogText(filePath, now, returnCode, out, err), LogHead(filePath, now),
                 Render(OptionalBlocks(returnCode, out, err)), InvocationHeading + filePath, StdoutHeading);
  }

  /** The text of the `_ERROR` log left when the run raised `error`. */
  function ErrorLogText(error: string, filePath: string, now: Timestamp): string {
    "ОШИБКА ЗАПУСКА:\n" + error + "\n\n" + "Файл: " + filePath + "\n" + "Дата и время: " + Display(now) + "\n"
  }

  /** The `_ERROR` log opens with the error message and names the file. */
  lemma ErrorLogTextParts(error: string, filePath: string, now: Timestamp)
    ensures var text := ErrorLogText(error, filePath, now);
      var head := "ОШИБКА ЗАПУСКА:\n" + error;
      && |head| <= |text| && text[..|head|] == head
      && Contains(text, "Файл: " + filePath + "\n")
  {
    var text := ErrorLogText(error, filePath, now);
    var head := "ОШИБКА ЗАПУСКА:\n" + error;
    var a := head + "\n\n";
    var b := "Файл: " + filePath + "\n";
    var c := "Дата и время: " + Display(now) + "\n";
    assert text == a + b + c;
    AppendAssoc(a, b, c);
    ConcatParts(a, b + c);
    ConcatParts(b, c);
    assert OccursAt(text, b, |a|);
    ContainsIff(text, b);
    assert text[..|head|] == a[..|head|];
  }
}
