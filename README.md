# Interton example runner, modelled in Dafny

`examples/test_examples.py` runs the Interton compiler (`intertonc --run`) on
every `.it` example of the repository. This project models it as follows.

Setup:

- It locates the compiler. The `INTERTONC_PATH` override comes first, then three build outputs, then `shutil.which`.
- It fills in the runtime variables (`INTERTON_PY` … `INTERTON_JAVA`) from the search path.

The walk of the examples tree gives each file exactly one decision:

- The harness's own earlier logs are dropped without being counted.
- Every extension other than `.it`, compared without case, is skipped.
- A source that embeds a runtime (`<py>`, `<js>`, `<ts>`, `<c>`, `<cpp>`, `<cs>`, `<j>`) whose variable is unset is skipped. The first such runtime, in that order, decides.
- Every other file is run.

The module directory `examples/basic/modules` is passed over without counting. Its subdirectories are still walked.

Each run:

- leaves a log beside the source, or an `_ERROR` log when the run raised;
- raises `passed` or `failed`; a failure appends the file's path to the failed list.

At the end a summary is composed. The exit status is 1 for the two fatal setup errors, otherwise 0 or 2.

The host is an input:

- the filesystem tests;
- `shutil.which`, `os.path.join`, `os.path.normpath` and `os.pathsep`;
- the walk, each file's decoded text;
- the compiler's result for each file;
- the clock.

The model is organised as follows:

- `Text`, `Clock`, `Paths`, `Platform` and `Runtimes` hold the vocabulary: substring tests, `str.split`, `str(int)`, `strftime`, `os.path.splitext`, and the runtimes' markers, variables and probe names.
- `Resolve` holds `_which`, `resolve_intertonc` and `_ensure_env`. Each search is a method with the source's nested loops and early returns. Each method is proved equal to a first-match specification function.
- `Classify` holds the per-file decision. The generated-log regex is written as a string predicate and proved equivalent to the regex's reading (`.*`, then the tail, then `$`).
- `Logs` holds the log names and the log text.
- `TestExamples` holds the rest:
  - `Harness` is a class whose fields are the counters, the failed list and the logs written. Its methods process a file, a directory and the walk. Each method is proved to leave the state that the fold `RecordWalk` describes.
  - Lemmas about that fold give the totals, the failed list and the independence from earlier logs.
  - The summary, the exit status and `run_intertonc_on_examples` itself.

Three behaviours of the code are easy to miss:

- Files in the module directory are not counted at all (lines 88-90).
- An exception while reading or scanning a source does not skip it. The file goes on to the run (lines 148-149).
- A variable set to the empty string counts as unset (lines 24, 120).

The lemma rows below describe these definitions, which compute without a contract of their own:

- `Classify.Decide`: the per-file decision (lines 93-149).
- `TestExamples.Record`: one file's effect on the counters, the failed list and the logs (lines 96-202).
- `TestExamples.RecordDir` and `TestExamples.RecordWalk`: the fold over a directory's files (lines 91-202) and over the walk (lines 86-202).
- `Logs.LogName`: the log name `<stem>_<date>_<time>.txt` and its `_ERROR` variant (lines 168 and 210).
- `Logs.LogText`: the run log's content (lines 172-185).
- `Logs.ErrorLogText`: the error log's content (lines 213-216).
- `TestExamples.SummaryName` and `TestExamples.SummaryText`: the summary's file name and content (lines 232-244).
- `Resolve.WhichSpec`: the first-match reading of `_which` (lines 9-21).
- `Resolve.ResolveSpec`: the first-match reading of `resolve_intertonc` (lines 29-45).
- `Resolve.Ensured`: the environment after one `_ensure_env` (lines 23-27).

## Model

| member | source | states |
|---|---|---|
| Resolve.FirstSomeHitAt | examples/test_examples.py:16-20 | A search over an ordered list returns the hit at `i` when every earlier candidate misses |
| Resolve.FirstSomeMisses | examples/test_examples.py:16-21 | A search comes back empty exactly when every candidate misses |
| Resolve.FirstSomeIsEarliest | examples/test_examples.py:39-41 | A search returns `v` exactly when `v` is the hit of the earliest candidate that hits |
| Resolve.NameProbeOrder | examples/test_examples.py:12-20 | A command name resolves to `shutil.which`'s answer when that is non-empty. Otherwise a found path is the first PATH entry that has a hit, joined with the first of the five suffixes `""`, `.exe`, `.cmd`, `.bat`, `.ps1` that names a file there |
| Resolve.NameProbeMisses | examples/test_examples.py:9-21 | Nothing is found for a name exactly when `shutil.which` gives no non-empty answer and no PATH entry joined with any of the five suffixes names a file |
| Resolve.Which | examples/test_examples.py:9-21 | `_which` with its loops and early returns returns exactly the first-match result over names, then PATH entries, then suffixes |
| Resolve.ScanPath | examples/test_examples.py:15-20 | The nested PATH scan returns the first entry and suffix that name a file, or nothing |
| Resolve.ResolveIntertonc | examples/test_examples.py:29-45 | `resolve_intertonc`, as the loop with early return, returns the first-match result over the candidate list and then PATH |
| Resolve.ResolveIsFirstExisting | examples/test_examples.py:30-45 | The compiler is the earliest existing candidate: the override when set, then the three build outputs. Only when none exists is `shutil.which("intertonc")` asked, and only a non-empty answer counts |
| Resolve.OverrideWins | examples/test_examples.py:30-41 | A non-empty `INTERTONC_PATH` that exists is always the result |
| Resolve.CompilerCandidates | examples/test_examples.py:31-38 | There are four candidates when the override is set (non-empty), three otherwise |
| Resolve.CompilerCandidatesOrder | examples/test_examples.py:31-38 | The override comes first when it is set (non-empty), followed by the three build outputs in source order, each joined onto the project root |
| Resolve.EnsuredSpec | examples/test_examples.py:23-27 | A variable already set is left untouched. An unset one gets the first command found, and is set afterwards exactly when a non-empty path was found. No other variable changes |
| Resolve.EnsuredIdempotent | examples/test_examples.py:23-27 | A second `_ensure_env` with the same arguments changes nothing |
| Resolve.EnsuredRuntimesKeeps | examples/test_examples.py:72-78 | Probing the runtimes never overwrites a set variable, and never touches a variable that belongs to no runtime |
| Resolve.Environ.EnsureEnv | examples/test_examples.py:23-27 | `_ensure_env` updates `os.environ` to exactly the environment `Ensured` describes |
| TestExamples.EnsuredInOrderIsFold | examples/test_examples.py:72-78 | The seven calls, in source order, are the runtimes of the marker order probed in turn |
| TestExamples.EnsureRuntimeVariables | examples/test_examples.py:72-78 | The seven `_ensure_env` calls leave the environment that probing every runtime in order describes |
| Runtimes.Rank | examples/test_examples.py:113-147 | Each runtime's position in the fixed order py, js, ts, c, cpp, cs, j |
| Runtimes.EnvVarDistinct | examples/test_examples.py:120-147 | No two runtimes share a variable |
| Classify.GeneratedLogNameIff | examples/test_examples.py:67 | The end-anchored check holds exactly when the regex matches. The regex is read as: a line-feed-free prefix, the `_date_time[_ERROR].txt` tail compared without case, then the end or a final line feed |
| Classify.SourceExtensionIgnoresCase | examples/test_examples.py:93-107 | A file is an `.it` source exactly when its extension equals `.it` up to ASCII case |
| Classify.FirstMissing | examples/test_examples.py:113-147 | The result is a runtime the text flags whose variable is unset, with no earlier runtime in that state. None means no runtime is in that state |
| Classify.DecideSpec | examples/test_examples.py:93-149 | Earlier logs, and only they, are dropped. Every other extension but `.it` is skipped. A source is skipped for the first runtime it needs that is unset. Exactly the remaining sources, and those whose text could not be read, are run |
| Classify.NonSourceIgnoresContent | examples/test_examples.py:99-107 | A file that is not an `.it` source is decided without reading it |
| Classify.SettingVariableAdmits | examples/test_examples.py:120-147 | Setting the one missing runtime's variable to a non-empty value turns the skipped source into a run |
| Paths.SplitExt | examples/test_examples.py:93 | `os.path.splitext`: the stem and extension concatenate to the name. The extension is empty, or is a dot followed by no dot, after a stem that is not all dots |
| Paths.SplitExtOfStemAndExt | examples/test_examples.py:93 | Conversely, a stem that is not all dots plus a dot-led, dot-free suffix splits back into exactly those two |
| Logs.StampOfShape | examples/test_examples.py:164-165 | `_%Y-%m-%d_%H-%M-%S` has the shape `_dddd-dd-dd_dd-dd-dd`, with each field in its place |
| Logs.StampValues | examples/test_examples.py:164-165 | Each field of the stamp reads back as the clock field it was written from |
| Logs.ParseLogNameRoundTrip | examples/test_examples.py:163-168 | A log name reads back as its stem, its time to the second and its error mark |
| Logs.LogNameCollision | examples/test_examples.py:163-169 | Two log names coincide exactly when stem, second and error mark do. Two runs of one stem within a second overwrite each other's log |
| Logs.LogNameIsGenerated | examples/test_examples.py:163-168 | Every log name the harness builds matches the generated-log pattern exactly when its stem holds no line feed |
| Logs.LogBlocksPresence | examples/test_examples.py:178-185 | STDOUT appears iff stdout is non-empty, STDERR iff stderr is non-empty, and the return-code line iff the code is not 0. Each block carries the run's own value |
| Logs.LogBlocksOrder | examples/test_examples.py:172-185 | The blocks come in the order written: command, start time, banner, STDOUT, STDERR, return code |
| Logs.RenderAppend | examples/test_examples.py:172-185 | The text of a sequence of blocks is the concatenation of the blocks' texts |
| Logs.LogTextStdout | examples/test_examples.py:172-179 | The log text opens with the command line naming the file. Right after the fixed head comes `STDOUT:` exactly when the program printed something |
| Logs.ErrorLogTextParts | examples/test_examples.py:213-216 | The `_ERROR` log opens with the error message and names the file |
| Text.ContainsIff | examples/test_examples.py:113-119 | Python's `marker in content` holds exactly when the marker occurs at some position |
| Text.Split | examples/test_examples.py:10 | `str.split` with a separator always yields at least one entry, even for an empty PATH |
| Text.SplitJoin | examples/test_examples.py:10 | Joining `PATH.split(pathsep)` back gives PATH, and no entry contains the separator |
| Text.JoinSplit | examples/test_examples.py:10 | Splitting a join of separator-free entries gives the entries back |
| Text.IntTextRoundTrip | examples/test_examples.py:185 | The return code written into a log reads back as the same integer, negative codes included |
| Text.NatTextRoundTrip | examples/test_examples.py:238-240 | The counts written into the summary read back as the counts |
| Text.PaddedValue | examples/test_examples.py:164-165 | A zero-padded `strftime` field reads back as its value |
| TestExamples.RecordOutcome | examples/test_examples.py:96-202 | Each file is dropped (nothing changes), skipped (`skipped` up by one), passed or failed. A run raises exactly one of `passed` and `failed` and leaves its logs. Only a failure appends its path. A failed list as long as the failed count stays so |
| TestExamples.RunLogsAreDropped | examples/test_examples.py:168-211 | Every log a run leaves lies in the file's own directory and, when the stem holds no line feed, is dropped by the next run |
| TestExamples.DecisionOfDropsLogs | examples/test_examples.py:96-97 | The walk's decision drops exactly the files named like earlier logs |
| TestExamples.RecordWalkAppend | examples/test_examples.py:86-202 | Walking two stretches one after the other is walking their concatenation |
| TestExamples.ModuleDirContributesNothing | examples/test_examples.py:70-90 | A directory whose normalised path is the module directory can be taken out of the walk anywhere without changing the counts, the failed list or the logs. Other directories, its subdirectories included, are unaffected |
| TestExamples.RecordDirCounts | examples/test_examples.py:91-202 | In one directory, `passed + failed + skipped` grows by the number of files that are not earlier logs |
| TestExamples.RecordDirFailures | examples/test_examples.py:192-202 | In one directory, the failed list grows by exactly the paths of the files run that failed, in order, and the failed count by their number |
| TestExamples.WalkCounts | examples/test_examples.py:86-202 | `passed + failed + skipped` equals the number of files visited, minus earlier logs and module-directory files |
| TestExamples.WalkFailures | examples/test_examples.py:86-202 | The failed list is exactly the paths of the files run that failed, in encounter order, and `failed` is its length |
| TestExamples.RecordDirIgnoresLogs | examples/test_examples.py:96-97 | A directory's outcome is the same with or without earlier logs among its files |
| TestExamples.RerunIgnoresLogs | examples/test_examples.py:86-202 | Two walks that differ only in earlier logs beside the sources end in the same counts, failed list and new logs |
| TestExamples.FailedListLines | examples/test_examples.py:243-244 | The failed-files list has a line for every failed path |
| TestExamples.SectionAfter | examples/test_examples.py:241-244 | After any head, the failed-files section is present exactly when some file failed, opens with its heading and lists every failed path |
| TestExamples.SummaryFailedSection | examples/test_examples.py:236-244 | The summary opens with its head of counts. The "Failed files" section follows exactly when `failed_files` is non-empty, and lists each failed path |
| TestExamples.ExitStatus | examples/test_examples.py:53-246 | The status is 1 iff the examples directory is missing or no compiler resolves, 0 iff neither and nothing failed, and 2 iff neither and something failed |
| TestExamples.Harness.constructor | examples/test_examples.py:81-84 | The counters start at zero with an empty failed list |
| TestExamples.Harness.WriteErrorLog | examples/test_examples.py:205-220 | The `_ERROR` log is appended when writing it succeeds; a failure to write it changes nothing |
| TestExamples.Harness.RunFile | examples/test_examples.py:151-220 | Running an admitted file leaves exactly the state `Record` describes for a run: a launch or log-write exception counts a failure and leaves the `_ERROR` log; otherwise the log is written and the return code decides |
| TestExamples.Harness.ProcessFile | examples/test_examples.py:91-220 | One file updates the counters, the failed list and the logs exactly as `Record` does for the file's decision |
| TestExamples.Harness.ProcessDirectory | examples/test_examples.py:91-220 | The files of a directory, in order, leave the state the fold `RecordDir` describes |
| TestExamples.Harness.ProcessWalk | examples/test_examples.py:86-220 | The walk loop, passing over the module directory, leaves the state the fold `RecordWalk` describes |
| TestExamples.TestAllExamples | examples/test_examples.py:81-246 | The report holds the compiler, the walk's final tally, the summary's name and text. The status is 0 when nothing failed and 2 otherwise |
| TestExamples.RunIntertoncOnExamples | examples/test_examples.py:48-246 | The status is `ExitStatus` of the two fatal checks and the failed count. On status 1 nothing else happens. Otherwise the environment is the probed one, and the report holds the tally of the walk decided against it and the summary of that tally |

## Left out

- `examples/measure.py` is not part of this model: it appends one fixed JSON record to a file.
- The console messages are not modelled, including the chance that a `print` raises.
- The following are inputs, not operations of the model:
  - `subprocess.run`: its return code, stdout and stderr, or the exception it raised;
  - `os.walk`: the walk order and file lists;
  - opening and decoding a file with `errors='ignore'`: its text, or a read failure;
  - `datetime.now()`;
  - `shutil.which`, `os.path.isfile`, `Path.exists`, `os.path.join`, `os.path.normpath`;
  - the project root that `Path(__file__).resolve()` gives.
- Writing the run log is modelled as succeeding or raising. A write that raises after creating the file may leave a partial log on disk; the model records no log in that case.
- Other exceptions inside the run's `try` block are not distinguished from a launch failure. These include exceptions from `os.path.join` and from the clock.
- Creating `test_results/` and writing the summary are taken to succeed. The model gives the summary's name and text. A failure there would end the script with a traceback.
- The regex's `\d`, `re.IGNORECASE` and `str.lower()` are modelled on ASCII only. Python also treats non-ASCII digits and letters.
- `Clock.Year` is 1000..9999, so that `%Y` is always four digits. Earlier years print with fewer digits on some platforms.
- Days are 1..31 for every month. An impossible date is accepted as an input, and nothing depends on it.
- `Path(env_path)` normalises the override (for example a trailing separator). The model returns the variable's value unchanged.
- File names from `os.walk` contain no path separator, so `os.path.splitext` is modelled on the name alone.
- Logs.LogNameIsGenerated is an iff on the stem holding no line feed. A stem with a line feed yields a log name the pattern misses, so such a log would be counted as a skipped file on the next run. TestExamples.RunLogsAreDropped therefore requires a stem without a line feed.
