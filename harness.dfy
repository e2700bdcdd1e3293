/** The example run: walk the corpus, decide each file, run the compiler on the
    admitted ones, log each run beside its source, tally passed / failed /
    skipped, write a summary and pick the exit status. The walk, the files'
    text, the compiler's results and the clock are inputs. */
module TestExamples {
  import opened Wrappers
  import opened Text
  import opened Clock
  import opened Platform
  import opened Runtimes
  import opened Paths
  import opened Resolve
  import opened Classify
  import opened Logs

  // ---------------------------------------------------------------------------
  // Inputs

  /** What `subprocess.run([intertonc, "--run", file_path])` did. */
  datatype RunOutcome =
    | Completed(returnCode: int, stdout: string, stderr: string)
    | LaunchFailed(error: string)    // the call raised; `str(e)`

  /** Everything outside the harness that the handling of one file depends on. */
  datatype FileWorld = FileWorld(
    content: Option<string>,         // decoded text; None when open/read raised
    run: RunOutcome,
    logWriteError: Option<string>,   // Some(str(e)) when writing the run log raised
    errorLogWritten: bool,           // writing the `_ERROR` log did not raise
    now: Timestamp,                  // datetime.now() after the run
    errorNow: Timestamp)             // datetime.now() in the except branch

  datatype FileEntry = FileEntry(name: string, world: FileWorld)

  /** One `(root, dirs, files)` triple of `os.walk`, in walk order. */
  datatype WalkEntry = WalkEntry(root: string, files: seq<FileEntry>)

  // ---------------------------------------------------------------------------
  // Outputs

  /** A log file written into directory `dir`. */
  datatype LogFile = LogFile(dir: string, name: string, text: string)

  /** The tally kept during the walk, and the logs written so far. */
  datatype Progress = Progress(
    passed: nat, failed: nat, skipped: nat,
    failedFiles: seq<string>,
    logs: seq<LogFile>)

  const Start: Progress := Progress(0, 0, 0, [], [])

  /** The failed list has one entry per failure. */
  predicate Consistent(p: Progress) {
    |p.failedFiles| == p.failed
  }

  // ---------------------------------------------------------------------------
  // One file

  /** `os.path.splitext(file)[0]` */
  function Stem(name: string): string {
    SplitExt(name).0
  }

  /** An admitted file fails when the launch raised, when writing its log
      raised, or when the compiler returned non-zero. */
  predicate RunFails(w: FileWorld) {
    w.run.LaunchFailed? || w.logWriteError.Some? || w.run.returnCode != 0
  }

  /** The `_ERROR` log written from the except branch, if writing it succeeded. */
  function ErrorLogs(root: string, name: string, filePath: string, error: string, w: FileWorld): seq<LogFile> {
    if w.errorLogWritten
    then [LogFile(root, LogName(Stem(name), w.errorNow, true), ErrorLogText(error, filePath, w.errorNow))]
    else []
  }

  /** The logs left by an admitted file. */
  function RunLogs(root: string, name: string, filePath: string, w: FileWorld): seq<LogFile> {
    match w.run
    case LaunchFailed(e) => ErrorLogs(root, name, filePath, e, w)
    case Completed(rc, out, err) =>
      match w.logWriteError
      case Some(e) => ErrorLogs(root, name, filePath, e, w)
      case None => [LogFile(root, LogName(Stem(name), w.now, false), LogText(filePath, w.now, rc, out, err))]
  }

  /** The progress after one file of a directory that is not the module
      directory, once the file has been decided. */
  function Record(p: Progress, host: Host, root: string, f: FileEntry, d: Decision): Progress {
    var filePath := host.join(root, f.name);
    match d
    case GeneratedLog => p
    case Run =>
      if RunFails(f.world)
      then p.(failed := p.failed + 1, failedFiles := p.failedFiles + [filePath],
              logs := p.logs + RunLogs(root, f.name, filePath, f.world))
      else p.(passed := p.passed + 1, logs := p.logs + RunLogs(root, f.name, filePath, f.world))
    case _ => p.(skipped := p.skipped + 1)
  }

  /** Each file is dropped, skipped, passed or failed, and moves exactly one
      counter by one (a dropped log none); only a failure is appended to the
      failed list, and only a run leaves a log. */
  lemma RecordOutcome(p: Progress, host: Host, root: string, f: FileEntry, d: Decision)
    ensures var q := Record(p, host, root, f, d);
      && (d == GeneratedLog ==> q == p)
      && (d != GeneratedLog && d != Run ==> q == p.(skipped := p.skipped + 1))
      && (d == Run ==>
            && q.skipped == p.skipped
            && q.logs == p.logs + RunLogs(root, f.name, host.join(root, f.name), f.world)
            && (RunFails(f.world) ==>
                  q.passed == p.passed && q.failed == p.failed + 1
                  && q.failedFiles == p.failedFiles + [host.join(root, f.name)])
            && (!RunFails(f.world) ==>
                  q.passed == p.passed + 1 && q.failed == p.failed
                  && q.failedFiles == p.failedFiles))
      && (Consistent(p) ==> Consistent(q))
  {
  }

  /** Every log an admitted file leaves is named from its stem, and so is
      dropped by a later run whenever the stem holds no line feed. */
  lemma RunLogsAreDropped(root: string, name: string, filePath: string, w: FileWorld)
    requires '\n' !in Stem(name)
    ensures forall l :: l in RunLogs(root, name, filePath, w) ==> l.dir == root && IsGeneratedLogName(l.name)
  {
    LogNameIsGenerated(Stem(name), w.now, false);
    LogNameIsGenerated(Stem(name), w.errorNow, true);
  }

  // ---------------------------------------------------------------------------
  // The walk

  /** The decision the walk makes for each file, given the environment after
      the runtime probes. */
  function DecisionOf(env: Environment): FileEntry -> Decision {
    (f: FileEntry) => Decide(f.name, f.world.content, env)
  }

  /** `decide` drops exactly the earlier logs. */
  ghost predicate DropsLogs(decide: FileEntry -> Decision) {
    forall f :: decide(f) == GeneratedLog <==> IsGeneratedLogName(f.name)
  }

  lemma DecisionOfDropsLogs(env: Environment)
    ensures DropsLogs(DecisionOf(env))
  {
    forall f: FileEntry
      ensures DecisionOf(env)(f) == GeneratedLog <==> IsGeneratedLogName(f.name)
    {
      DecideSpec(f.name, f.world.content, env);
    }
  }

  /** The progress after the files of one directory, in order. */
  function RecordDir(p: Progress, host: Host, root: string, files: seq<FileEntry>, decide: FileEntry -> Decision): Progress
    decreases |files|
  {
    if files == [] then p
    else
      var f := files[|files| - 1];
      Record(RecordDir(p, host, root, files[..|files| - 1], decide), host, root, f, decide(f))
  }

  /** `os.path.normpath(str(examples_path / "basic" / "modules"))` */
  function ModuleDir(host: Host, projectRoot: string): string {
    host.normpath(JoinAll(host, host.join(projectRoot, "examples"), ["basic", "modules"]))
  }

  /** The progress after the walk, in walk order; a directory whose normalised
      path is the module directory adds nothing, its subdirectories are
      entries of their own. */
  function RecordWalk(p: Progress, host: Host, walk: seq<WalkEntry>, decide: FileEntry -> Decision, moduleDir: string): Progress
    decreases |walk|
  {
    if walk == [] then p
    else
      var before := RecordWalk(p, host, walk[..|walk| - 1], decide, moduleDir);
      var e := walk[|walk| - 1];
      if host.normpath(e.root) == moduleDir then before else RecordDir(before, host, e.root, e.files, decide)
  }

  /** Walking two stretches one after the other. */
  lemma {:induction false} RecordWalkAppend(p: Progress, host: Host, a: seq<WalkEntry>, b: seq<WalkEntry>,
                                            decide: FileEntry -> Decision, moduleDir: string)
    ensures RecordWalk(p, host, a + b, decide, moduleDir)
         == RecordWalk(RecordWalk(p, host, a, decide, moduleDir), host, b, decide, moduleDir)
    decreases |b|
  {
    if b == [] {
      assert a + b == a;
    } else {
      assert (a + b)[..|a + b| - 1] == a + b[..|b| - 1];
      RecordWalkAppend(p, host, a, b[..|b| - 1], decide, moduleDir);
    }
  }

  /** A module-directory entry can be taken out of the walk anywhere without
      changing anything. */
  lemma ModuleDirContributesNothing(p: Progress, host: Host, a: seq<WalkEntry>, e: WalkEntry, b: seq<WalkEntry>,
                                    decide: FileEntry -> Decision, moduleDir: string)
    requires host.normpath(e.root) == moduleDir
    ensures RecordWalk(p, host, a + [e] + b, decide, moduleDir) == RecordWalk(p, host, a + b, decide, moduleDir)
  {
    RecordWalkAppend(p, host, a + [e], b, decide, moduleDir);
    RecordWalkAppend(p, host, a, b, decide, moduleDir);
    assert (a + [e])[..|a + [e]| - 1] == a;
  }

  // ---------------------------------------------------------------------------
  // What the tally adds up to

  /** Files of a directory that are not earlier logs. */
  function Counted(files: seq<FileEntry>): nat
    decreases |files|
  {
    if files == [] then 0
    else Counted(files[..|files| - 1]) + (if IsGeneratedLogName(files[|files| - 1].name) then 0 else 1)
  }

  function CountedWalk(host: Host, walk: seq<WalkEntry>, moduleDir: string): nat
    decreases |walk|
  {
    if walk == [] then 0
    else
      var e := walk[|walk| - 1];
      CountedWalk(host, walk[..|walk| - 1], moduleDir) + (if host.normpath(e.root) == moduleDir then 0 else Counted(e.files))
  }

  /** Paths of the files of a directory that were run and failed, in order. */
  function FailedIn(host: Host, root: string, files: seq<FileEntry>, decide: FileEntry -> Decision): seq<string>
    decreases |files|
  {
    if files == [] then []
    else
      var f := files[|files| - 1];
      FailedIn(host, root, files[..|files| - 1], decide)
      + (if decide(f) == Run && RunFails(f.world) then [host.join(root, f.name)] else [])
  }

  function FailedWalk(host: Host, walk: seq<WalkEntry>, decide: FileEntry -> Decision, moduleDir: string): seq<string>
    decreases |walk|
  {
    if walk == [] then []
    else
      var e := walk[|walk| - 1];
      FailedWalk(host, walk[..|walk| - 1], decide, moduleDir)
      + (if host.normpath(e.root) == moduleDir then [] else FailedIn(host, e.root, e.files, decide))
  }

  function Total(p: Progress): nat {
    p.passed + p.failed + p.skipped
  }

  lemma {:induction false} RecordDirCounts(p: Progress, host: Host, root: string, files: seq<FileEntry>,
                                           decide: FileEntry -> Decision)
    requires DropsLogs(decide)
    ensures Total(RecordDir(p, host, root, files, decide)) == Total(p) + Counted(files)
    decreases |files|
  {
    if files != [] {
      var init := files[..|files| - 1];
      var f := files[|files| - 1];
      RecordDirCounts(p, host, root, init, decide);
      RecordOutcome(RecordDir(p, host, root, init, decide), host, root, f, decide(f));
      assert decide(f) == GeneratedLog <==> IsGeneratedLogName(f.name);
    }
  }

  lemma {:induction false} RecordDirFailures(p: Progress, host: Host, root: string, files: seq<FileEntry>,
                                             decide: FileEntry -> Decision)
    ensures var q := RecordDir(p, host, root, files, decide);
      && q.failedFiles == p.failedFiles + FailedIn(host, root, files, decide)
      && q.failed == p.failed + |FailedIn(host, root, files, decide)|
    decreases |files|
  {
    if files != [] {
      var init := files[..|files| - 1];
      var f := files[|files| - 1];
      RecordDirFailures(p, host, root, init, decide);
      RecordOutcome(RecordDir(p, host, root, init, decide), host, root, f, decide(f));
    }
  }

  /** Every visited file that is neither an earlier log nor in the module
      directory is counted exactly once. */
  lemma {:induction false} WalkCounts(p: Progress, host: Host, walk: seq<WalkEntry>, decide: FileEntry -> Decision,
                                      moduleDir: string)
    requires DropsLogs(decide)
    ensures Total(RecordWalk(p, host, walk, decide, moduleDir)) == Total(p) + CountedWalk(host, walk, moduleDir)
    decreases |walk|
  {
    if walk != [] {
      var init := walk[..|walk| - 1];
      var e := walk[|walk| - 1];
      WalkCounts(p, host, init, decide, moduleDir);
      if host.normpath(e.root) != moduleDir {
        RecordDirCounts(RecordWalk(p, host, init, decide, moduleDir), host, e.root, e.files, decide);
      }
    }
  }

  /** The failed list holds exactly the paths of the files that were run and
      failed, in encounter order, and the failed count is its length. */
  lemma {:induction false} WalkFailures(p: Progress, host: Host, walk: seq<WalkEntry>, decide: FileEntry -> Decision,
                                        moduleDir: string)
    ensures var q := RecordWalk(p, host, walk, decide, moduleDir);
      && q.failedFiles == p.failedFiles + FailedWalk(host, walk, decide, moduleDir)
      && q.failed == p.failed + |FailedWalk(host, walk, decide, moduleDir)|
    decreases |walk|
  {
    if walk != [] {
      var init := walk[..|walk| - 1];
      var e := walk[|walk| - 1];
      var failedBefore := FailedWalk(host, init, decide, moduleDir);
      WalkFailures(p, host, init, decide, moduleDir);
      if host.normpath(e.root) != moduleDir {
        var here := FailedIn(host, e.root, e.files, decide);
        RecordDirFailures(RecordWalk(p, host, init, decide, moduleDir), host, e.root, e.files, decide);
        AppendAssoc(p.failedFiles, failedBefore, here);
      } else {
        AppendEmpty(failedBefore);
      }
    }
  }

  // ---------------------------------------------------------------------------
  // A second run over the same corpus

  /** The files that are not earlier logs. */
  function WithoutLogs(files: seq<FileEntry>): seq<FileEntry>
    decreases |files|
  {
    if files == [] then []
    else
      var f := files[|files| - 1];
      WithoutLogs(files[..|files| - 1]) + (if IsGeneratedLogName(f.name) then [] else [f])
  }

  lemma {:induction false} RecordDirIgnoresLogs(p: Progress, host: Host, root: string, files: seq<FileEntry>,
                                                decide: FileEntry -> Decision)
    requires DropsLogs(decide)
    ensures RecordDir(p, host, root, files, decide) == RecordDir(p, host, root, WithoutLogs(files), decide)
    decreases |files|
  {
    if files != [] {
      var init := files[..|files| - 1];
      var last := files[|files| - 1];
      RecordDirIgnoresLogs(p, host, root, init, decide);
      assert decide(last) == GeneratedLog <==> IsGeneratedLogName(last.name);
      if IsGeneratedLogName(last.name) {
        AppendEmpty(WithoutLogs(init));
      } else {
        DropLast(WithoutLogs(init), last);
      }
    }
  }

  /** Two walks that differ only in earlier logs lying beside the sources end
      with the same counts, the same failed list and the same new logs: the
      logs of one run do not change the next. */
  lemma {:induction false} RerunIgnoresLogs(p: Progress, host: Host, w1: seq<WalkEntry>, w2: seq<WalkEntry>,
                                            decide: FileEntry -> Decision, moduleDir: string)
    requires DropsLogs(decide)
    requires |w1| == |w2|
    requires forall i :: 0 <= i < |w1| ==>
      w1[i].root == w2[i].root && WithoutLogs(w1[i].files) == WithoutLogs(w2[i].files)
    ensures RecordWalk(p, host, w1, decide, moduleDir) == RecordWalk(p, host, w2, decide, moduleDir)
    decreases |w1|
  {
    if w1 != [] {
      var n := |w1| - 1;
      RerunIgnoresLogs(p, host, w1[..n], w2[..n], decide, moduleDir);
      var before := RecordWalk(p, host, w1[..n], decide, moduleDir);
      RecordDirIgnoresLogs(before, host, w1[n].root, w1[n].files, decide);
      RecordDirIgnoresLogs(before, host, w2[n].root, w2[n].files, decide);
    }
  }

  // ---------------------------------------------------------------------------
  // Summary and exit status

  /** `f"test_examples_summary_{now.strftime('%Y%m%d_%H%M%S')}.md"` */
  function SummaryName(t: Timestamp): string {
    "test_examples_summary_" + CompactText(t) + ".md"
  }

  function SummaryHead(t: Timestamp, compiler: string, p: Progress): string {
    "# test_examples.py summary - " + Display(t) + "\n\n"
    + "- intertonc: `" + compiler + "`\n"
    + "- Passed: " + NatText(p.passed) + "\n"
    + "- Failed: " + NatText(p.failed) + "\n"
    + "- Skipped: " + NatText(p.skipped) + "\n"
  }

  const FailedHeading: string := "\n## Failed files\n"

  function FailedList(files: seq<string>): string {
    if files == [] then "" else "- `" + files[0] + "`\n" + FailedList(files[1..])
  }

  function FailedSection(files: seq<string>): string {
    if files == [] then "" else FailedHeading + FailedList(files)
  }

  function SummaryText(t: Timestamp, compiler: string, p: Progress): string {
    SummaryHead(t, compiler, p) + FailedSection(p.failedFiles)
  }

  /** The list of failed files has one line per path, in order. */
  lemma {:induction false} FailedListLines(files: seq<string>, k: nat)
    requires k < |files|
    ensures exists i :: 0 <= i && OccursAt(FailedList(files), "- `" + files[k] + "`\n", i)
  {
    var line := "- `" + files[0] + "`\n";
    var rest := FailedList(files[1..]);
    assert FailedList(files) == line + rest;
    if k == 0 {
      ConcatParts(line, rest);
      assert OccursAt(line + rest, line, 0);
    } else {
      FailedListLines(files[1..], k - 1);
      var sub := "- `" + files[k] + "`\n";
      assert files[1..][k - 1] == files[k];
      var i :| 0 <= i && OccursAt(rest, sub, i);
      OccursAfter(line, rest, sub, i);
    }
  }

  /** Whatever comes before it, the failed-files section follows it intact. */
  lemma SectionAfter(head: string, files: seq<string>)
    ensures var text := head + FailedSection(files);
      && text[..|head|] == head
      && (|text| > |head| <==> files != [])
      && (files != [] ==> text[|head|..|head| + |FailedHeading|] == FailedHeading)
      && forall k :: 0 <= k < |files| ==> Contains(text, "- `" + files[k] + "`\n")
  {
    var text := head + FailedSection(files);
    ConcatParts(head, FailedSection(files));
    if files != [] {
      var list := FailedList(files);
      AppendAssoc(head, FailedHeading, list);
      ConcatParts(head + FailedHeading, list);
      forall k | 0 <= k < |files| ensures Contains(text, "- `" + files[k] + "`\n") {
        var sub := "- `" + files[k] + "`\n";
        FailedListLines(files, k);
        var i :| 0 <= i && OccursAt(list, sub, i);
        OccursAfter(head + FailedHeading, list, sub, i);
        ContainsIff(text, sub);
      }
    }
  }

  /** After the counts, the summary goes on with the "Failed files" section
      exactly when some file failed, and that section lists every failed path. */
  lemma SummaryFailedSection(t: Timestamp, compiler: string, p: Progress)
    ensures var text := SummaryText(t, compiler, p);
      var head := SummaryHead(t, compiler, p);
      && text[..|head|] == head
      && (|text| > |head| <==> p.failedFiles != [])
      && (p.failedFiles != [] ==> text[|head|..|head| + |FailedHeading|] == FailedHeading)
      && forall k :: 0 <= k < |p.failedFiles| ==> Contains(text, "- `" + p.failedFiles[k] + "`\n")
  {
    SectionAfter(SummaryHead(t, compiler, p), p.failedFiles);
  }

  /** `return 0 if failed == 0 else 2`, after the fatal checks that return 1. */
  function ExitStatus(examplesExist: bool, compiler: Option<string>, failed: nat): (status: int)
    ensures status == 1 <==> !examplesExist || !Truthy(compiler)
    ensures status == 0 <==> examplesExist && Truthy(compiler) && failed == 0
    ensures status == 2 <==> examplesExist && Truthy(compiler) && failed > 0
  {
    if !examplesExist || !Truthy(compiler) then 1
    else if failed == 0 then 0
    else 2
  }

  /** The result of a run that got past the fatal checks. */
  datatype Report = Report(
    compiler: string,
    progress: Progress,
    summaryName: string,     // under `test_results/`
    summaryText: string)

  // ---------------------------------------------------------------------------
  // The harness state

  class Harness {
    var passed: nat
    var failed: nat
    var skipped: nat
    var failedFiles: seq<string>
    var logs: seq<LogFile>

    function State(): Progress
      reads this
    {
      Progress(passed, failed, skipped, failedFiles, logs)
    }

    constructor ()
      ensures State() == Start
    {
      passed, failed, skipped := 0, 0, 0;
      failedFiles, logs := [], [];
    }

    /** The `_ERROR` log of the except branch; a failure to write it is swallowed. */
    method WriteErrorLog(root: string, name: string, filePath: string, error: string, w: FileWorld)
      modifies this`logs
      ensures logs == old(logs) + ErrorLogs(root, name, filePath, error, w)
    {
      if w.errorLogWritten {
        var logName := LogName(Stem(name), w.errorNow, true);
        logs := logs + [LogFile(root, logName, ErrorLogText(error, filePath, w.errorNow))];
      }
    }

    /** One file of a directory that is not the module directory. */
    method ProcessFile(host: Host, root: string, file: FileEntry, env: Environment)
      modifies this
      ensures State() == Record(old(State()), host, root, file, Decide(file.name, file.world.content, env))
    {
      var decision := Decide(file.name, file.world.content, env);
      if decision == Run {
        RunFile(host, root, file);
      } else if decision != GeneratedLog {
        // a listed extension, any other extension, or a missing runtime
        skipped := skipped + 1;
      }
    }

    /** The `try` block and its `except` branch for an admitted file. */
    method RunFile(host: Host, root: string, file: FileEntry)
      modifies this
      ensures State() == Record(old(State()), host, root, file, Run)
    {
      var name := file.name;
      var w := file.world;
      var filePath := host.join(root, name);
      match w.run {
        case LaunchFailed(e) =>
          failed := failed + 1;
          failedFiles := failedFiles + [filePath];
          WriteErrorLog(root, name, filePath, e, w);
        case Completed(rc, out, err) =>
          var logName := LogName(Stem(name), w.now, false);
          var logText := LogText(filePath, w.now, rc, out, err);
          match w.logWriteError {
            case Some(e) =>
              failed := failed + 1;
              failedFiles := failedFiles + [filePath];
              WriteErrorLog(root, name, filePath, e, w);
            case None =>
              logs := logs + [LogFile(root, logName, logText)];
              if rc == 0 {
                passed := passed + 1;
              } else {
                failed := failed + 1;
                failedFiles := failedFiles + [filePath];
              }
          }
      }
    }

    /** The files of one directory, in order. */
    method ProcessDirectory(host: Host, root: string, files: seq<FileEntry>, env: Environment)
      modifies this
      ensures State() == RecordDir(old(State()), host, root, files, DecisionOf(env))
    {
      for j := 0 to |files|
        invariant State() == RecordDir(old(State()), host, root, files[..j], DecisionOf(env))
      {
        assert files[..j + 1][..j] == files[..j];
        ProcessFile(host, root, files[j], env);
      }
      assert files[..|files|] == files;
    }

    /** The `os.walk` loop: the module directory is passed over. */
    method ProcessWalk(host: Host, walk: seq<WalkEntry>, env: Environment, moduleDir: string)
      modifies this
      ensures State() == RecordWalk(old(State()), host, walk, DecisionOf(env), moduleDir)
    {
      for i := 0 to |walk|
        invariant State() == RecordWalk(old(State()), host, walk[..i], DecisionOf(env), moduleDir)
      {
        assert walk[..i + 1][..i] == walk[..i];
        var entry := walk[i];
        if host.normpath(entry.root) == moduleDir {
          continue;
        }
        ProcessDirectory(host, entry.root, entry.files, env);
      }
      assert walk[..|walk|] == walk;
    }
  }

  /** The seven `_ensure_env` calls written out one after the other: a proof step
   *  that `EnsuredInOrderIsFold` equates with the fold over the runtime order. */
  function EnsuredInOrder(env: Environment, host: Host): Environment {
    var env1 := Ensured(env, EnvVar(Python), ProbeNames(Python), host);
    var env2 := Ensured(env1, EnvVar(JavaScript), ProbeNames(JavaScript), host);
    var env3 := Ensured(env2, EnvVar(TypeScript), ProbeNames(TypeScript), host);
    var env4 := Ensured(env3, EnvVar(C), ProbeNames(C), host);
    var env5 := Ensured(env4, EnvVar(Cpp), ProbeNames(Cpp), host);
    var env6 := Ensured(env5, EnvVar(CSharp), ProbeNames(CSharp), host);
    Ensured(env6, EnvVar(Java), ProbeNames(Java), host)
  }

  /** The seven calls are the runtimes of `Order` probed in turn. */
  lemma EnsuredInOrderIsFold(env: Environment, host: Host)
    ensures EnsuredInOrder(env, host) == EnsuredRuntimes(env, host, Order)
  {
    assert Order[1..] == [JavaScript, TypeScript, C, Cpp, CSharp, Java];
    assert Order[1..][1..] == [TypeScript, C, Cpp, CSharp, Java];
    assert Order[1..][1..][1..] == [C, Cpp, CSharp, Java];
    assert Order[1..][1..][1..][1..] == [Cpp, CSharp, Java];
    assert Order[1..][1..][1..][1..][1..] == [CSharp, Java];
    assert Order[1..][1..][1..][1..][1..][1..] == [Java];
  }

  method EnsureRuntimeVariables(environ: Environ, host: Host)
    modifies environ
    ensures environ.vars == EnsuredRuntimes(old(environ.vars), host, Order)
  {
    EnsuredInOrderIsFold(environ.vars, host);
    environ.EnsureEnv(EnvVar(Python), ProbeNames(Python), host);
    environ.EnsureEnv(EnvVar(JavaScript), ProbeNames(JavaScript), host);
    environ.EnsureEnv(EnvVar(TypeScript), ProbeNames(TypeScript), host);
    environ.EnsureEnv(EnvVar(C), ProbeNames(C), host);
    environ.EnsureEnv(EnvVar(Cpp), ProbeNames(Cpp), host);
    environ.EnsureEnv(EnvVar(CSharp), ProbeNames(CSharp), host);
    environ.EnsureEnv(EnvVar(Java), ProbeNames(Java), host);
  }

  /** Everything after the runtime variables are probed: the walk is tallied
      against the environment that results and the summary is composed. */
  method TestAllExamples(host: Host, env: Environment, compiler: string, moduleDir: string,
                         walk: seq<WalkEntry>, finishedAt: Timestamp)
    returns (status: int, report: Report)
    ensures var p := RecordWalk(Start, host, walk, DecisionOf(env), moduleDir);
      report == Report(compiler, p, SummaryName(finishedAt), SummaryText(finishedAt, compiler, p))
    ensures status == (if report.progress.failed == 0 then 0 else 2)
  {
    var harness := new Harness();
    harness.ProcessWalk(host, walk, env, moduleDir);

    var progress := harness.State();
    report := Report(compiler, progress, SummaryName(finishedAt),
                     SummaryText(finishedAt, compiler, progress));
    status := if harness.failed == 0 then 0 else 2;
  }

  /** `run_intertonc_on_examples()`: `environ` is `os.environ`, `walk` what
      `os.walk(examples_path)` yields, `finishedAt` the clock when the summary
      is written. */
  method RunIntertoncOnExamples(host: Host, environ: Environ, projectRoot: string,
                                walk: seq<WalkEntry>, finishedAt: Timestamp)
    returns (status: int, report: Option<Report>)
    modifies environ
    ensures var examplesExist := host.pathExists(host.join(projectRoot, "examples"));
      var compiler := ResolveSpec(old(environ.vars), projectRoot, host);
      status == ExitStatus(examplesExist, compiler, if report.Some? then report.value.progress.failed else 0)
    ensures status == 1 ==> report == None && environ.vars == old(environ.vars)
    ensures status != 1 ==>
      var compiler := ResolveSpec(old(environ.vars), projectRoot, host).value;
      var env := EnsuredRuntimes(old(environ.vars), host, Order);
      var p := RecordWalk(Start, host, walk, DecisionOf(env), ModuleDir(host, projectRoot));
      && environ.vars == env
      && report == Some(Report(compiler, p, SummaryName(finishedAt), SummaryText(finishedAt, compiler, p)))
  {
    var examplesPath := host.join(projectRoot, "examples");
    if !host.pathExists(examplesPath) {
      return 1, None;
    }
    var compiler := ResolveIntertonc(environ.vars, projectRoot, host);
    if !(compiler.Some? && compiler.value != "") {
      return 1, None;
    }
    var moduleDir := host.normpath(JoinAll(host, examplesPath, ["basic", "modules"]));
    EnsureRuntimeVariables(environ, host);
    var finished;
    status, finished := TestAllExamples(host, environ.vars, compiler.value, moduleDir, walk, finishedAt);
    report := Some(finished);
  }
}
