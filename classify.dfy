/** The per-file decision of the example walk: drop the harness's own earlier
    logs, skip anything that is not an `.it` source, skip a source that embeds a
    runtime whose variable is unset, and run the rest. */
module Classify {
  import opened Wrappers
  import opened Text
  import opened Platform
  import opened Runtimes
  import opened Paths

  const SourceExtension: string := ".it"

  /** Extensions recognised as non-sources; they are skipped like any other
      extension that is not `.it`. */
  const SkipExtensions: set<string> :=
    {".md", ".txt", ".log", ".json", ".ps1", ".py", ".cpp", ".c", ".h", ".hpp", ".cc"}

  // ---------------------------------------------------------------------------
  // `generated_log_pattern`:
  //   re.compile(r".*_\d{4}-\d{2}-\d{2}_\d{2}-\d{2}-\d{2}(?:_ERROR)?\.txt$", re.IGNORECASE).match
  // `.` does not match a line feed, `match` anchors at the start, and `$`
  // matches at the end or just before a final line feed.

  /** `_\d{4}-\d{2}-\d{2}_\d{2}-\d{2}-\d{2}`, twenty characters. */
  predicate IsStampText(s: string) {
    |s| == 20
    && s[0] == '_' && AllDigits(s[1..5]) && s[5] == '-' && AllDigits(s[6..8])
    && s[8] == '-' && AllDigits(s[9..11]) && s[11] == '_' && AllDigits(s[12..14])
    && s[14] == '-' && AllDigits(s[15..17]) && s[17] == '-' && AllDigits(s[18..20])
  }

  /** The whole of `_stamp(?:_ERROR)?\.txt`, letters compared without case. */
  predicate IsLogTail(t: string) {
    (|t| == 24 && IsStampText(t[..20]) && EqualsIgnoreCase(t[20..], ".txt"))
    || (|t| == 30 && IsStampText(t[..20]) && EqualsIgnoreCase(t[20..], "_ERROR.txt"))
  }

  /** `s` is a line-feed-free prefix followed by a log tail that reaches its end. */
  predicate EndsWithLogTail(s: string) {
    (|s| >= 24 && IsLogTail(s[|s| - 24..]) && '\n' !in s[..|s| - 24])
    || (|s| >= 30 && IsLogTail(s[|s| - 30..]) && '\n' !in s[..|s| - 30])
  }

  predicate IsGeneratedLogName(name: string) {
    EndsWithLogTail(name)
    || (|name| >= 1 && name[|name| - 1] == '\n' && EndsWithLogTail(name[..|name| - 1]))
  }

  /** What the regex means, written as the regex reads: some prefix without a
      line feed (`.*`), then the tail, then the end or a final line feed (`$`). */
  ghost predicate PatternMatches(name: string) {
    exists i, j :: 0 <= i <= j <= |name| && '\n' !in name[..i] && IsLogTail(name[i..j])
      && (j == |name| || (j == |name| - 1 && name[j] == '\n'))
  }

  lemma TailLength(t: string)
    requires IsLogTail(t)
    ensures |t| == 24 || |t| == 30
  {
  }

  /** A tail that ends `s` after a line-feed-free prefix, found at any
      position, is the one `EndsWithLogTail` looks for. */
  lemma EndsWithLogTailAt(s: string, i: int)
    requires 0 <= i <= |s| && '\n' !in s[..i] && IsLogTail(s[i..])
    ensures EndsWithLogTail(s)
  {
    TailLength(s[i..]);
  }

  lemma EndsWithLogTailWitness(s: string) returns (i: int)
    requires EndsWithLogTail(s)
    ensures 0 <= i <= |s| && '\n' !in s[..i] && IsLogTail(s[i..])
  {
    if |s| >= 24 && IsLogTail(s[|s| - 24..]) && '\n' !in s[..|s| - 24] {
      i := |s| - 24;
    } else {
      i := |s| - 30;
    }
  }

  lemma PatternMatchesGenerated(name: string)
    requires PatternMatches(name)
    ensures IsGeneratedLogName(name)
  {
    var i, j :| 0 <= i <= j <= |name| && '\n' !in name[..i] && IsLogTail(name[i..j])
      && (j == |name| || (j == |name| - 1 && name[j] == '\n'));
    var s := name[..j];
    assert s[i..] == name[i..j] && s[..i] == name[..i];
    EndsWithLogTailAt(s, i);
    if j == |name| {
      assert s == name;
    } else {
      assert s == name[..|name| - 1] && name[|name| - 1] == '\n';
    }
  }

  lemma GeneratedPatternMatches(name: string)
    requires IsGeneratedLogName(name)
    ensures PatternMatches(name)
  {
    var j := if EndsWithLogTail(name) then |name| else |name| - 1;
    var s := name[..j];
    assert EndsWithLogTail(s) by {
      if j == |name| { assert s == name; }
    }
    var i := EndsWithLogTailWitness(s);
    assert name[i..j] == s[i..] && name[..i] == s[..i];
    assert j == |name| || (j == |name| - 1 && name[j] == '\n');
  }

  /** The end-anchored check agrees with the regex on every name. */
  lemma GeneratedLogNameIff(name: string)
    ensures IsGeneratedLogName(name) <==> PatternMatches(name)
  {
    if PatternMatches(name) {
      PatternMatchesGenerated(name);
    }
    if IsGeneratedLogName(name) {
      GeneratedPatternMatches(name);
    }
  }

  // ---------------------------------------------------------------------------
  // Marker scan

  /** The file's text flags the runtime and the runtime's variable is unset
      or empty. */
  predicate Missing(rt: Runtime, content: string, env: Environment) {
    Contains(content, Marker(rt)) && !IsSet(env, EnvVar(rt))
  }

  /** The first runtime, in `Order`, that the text needs and the environment
      lacks; the checks after it are not made. */
  function FirstMissing(content: string, env: Environment): (r: Option<Runtime>)
    ensures r.Some? ==> Missing(r.value, content, env)
    ensures r.Some? ==> forall q :: Rank(q) < Rank(r.value) ==> !Missing(q, content, env)
    ensures r.None? ==> forall q :: !Missing(q, content, env)
  {
    if Missing(Python, content, env) then Some(Python)
    else if Missing(JavaScript, content, env) then Some(JavaScript)
    else if Missing(TypeScript, content, env) then Some(TypeScript)
    else if Missing(C, content, env) then Some(C)
    else if Missing(Cpp, content, env) then Some(Cpp)
    else if Missing(CSharp, content, env) then Some(CSharp)
    else if Missing(Java, content, env) then Some(Java)
    else None
  }

  // ---------------------------------------------------------------------------
  // The decision for one file of a directory that is not the module directory

  datatype Decision =
    | GeneratedLog                     // dropped without being counted
    | ListedExtension                  // skipped: extension in SkipExtensions
    | OtherExtension                   // skipped: any other extension but `.it`
    | MissingRuntime(runtime: Runtime) // skipped: needs a runtime that is unset
    | Run                              // handed to the compiler

  /** `os.path.splitext(file)[1].lower()` */
  function Extension(name: string): string {
    Lower(SplitExt(name).1)
  }

  /** The gate compares without case: a file is an `.it` source exactly when
      its extension is `.it` in any mix of capitals (`.IT`, `.It`). */
  lemma SourceExtensionIgnoresCase(name: string)
    ensures Extension(name) == SourceExtension <==> EqualsIgnoreCase(SplitExt(name).1, SourceExtension)
  {
    var ext := SplitExt(name).1;
    var lowered := Lower(ext);
    assert forall i :: 0 <= i < |SourceExtension| ==> LowerChar(SourceExtension[i]) == SourceExtension[i];
    if EqualsIgnoreCase(ext, SourceExtension) {
      assert lowered == SourceExtension;
    }
  }

  /** `content` is the decoded text of the file, or `None` when opening or
      reading it raised; a failed read lets the file through to the run. */
  function Decide(name: string, content: Option<string>, env: Environment): Decision {
    var ext := Extension(name);
    if IsGeneratedLogName(name) then GeneratedLog
    else if ext in SkipExtensions then ListedExtension
    else if ext != SourceExtension then OtherExtension
    else match content
      case None => Run
      case Some(text) =>
        match FirstMissing(text, env)
        case Some(rt) => MissingRuntime(rt)
        case None => Run
  }

  /** Earlier logs are dropped, every other file but an `.it` source is
      skipped on its extension, a source is skipped for the first runtime it
      needs that is unset, and only a source needing none, or whose text could
      not be read, is run. */
  lemma DecideSpec(name: string, content: Option<string>, env: Environment)
    ensures var d := Decide(name, content, env);
      && (d == GeneratedLog <==> IsGeneratedLogName(name))
      && (d == ListedExtension || d == OtherExtension <==>
            !IsGeneratedLogName(name) && Extension(name) != SourceExtension)
      && (d == ListedExtension ==> Extension(name) in SkipExtensions)
      && (d == Run <==>
            && !IsGeneratedLogName(name) && Extension(name) == SourceExtension
            && (content.None? || forall q :: !Missing(q, content.value, env)))
      && (d.MissingRuntime? ==>
            && !IsGeneratedLogName(name) && Extension(name) == SourceExtension && content.Some?
            && Missing(d.runtime, content.value, env)
            && forall q :: Rank(q) < Rank(d.runtime) ==> !Missing(q, content.value, env))
  {
  }

  /** A file that is not an `.it` source is decided without its text. */
  lemma NonSourceIgnoresContent(name: string, c1: Option<string>, c2: Option<string>, env: Environment)
    requires Extension(name) != SourceExtension
    ensures Decide(name, c1, env) == Decide(name, c2, env)
  {
  }

  /** Setting the one missing runtime's variable turns a skipped source into
      a run, all else held constant. */
  lemma SettingVariableAdmits(name: string, text: string, env: Environment, rt: Runtime, value: string)
    requires Decide(name, Some(text), env) == MissingRuntime(rt)
    requires forall q :: q != rt ==> !Missing(q, text, env)
    requires value != ""
    ensures Decide(name, Some(text), env[EnvVar(rt) := value]) == Run
  {
    var env' := env[EnvVar(rt) := value];
    assert forall q :: !Missing(q, text, env') by {
      forall q ensures !Missing(q, text, env') {
        if q == rt {
          assert IsSet(env', EnvVar(rt));
        } else {
          EnvVarDistinct(q, rt);
          assert !Missing(q, text, env);
          assert IsSet(env', EnvVar(q)) == IsSet(env, EnvVar(q));
        }
      }
    }
    assert FirstMissing(text, env') == None;
  }
}
