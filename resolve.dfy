/** Locating executables: the compiler (`resolve_intertonc`), any of a list of
    command names (`_which`), and the runtime variables filled in from the
    search path (`_ensure_env`). Each search returns its first hit; the
    specification functions say which hit that is and the methods compute it
    with the source's nested loops and early returns. */
module Resolve {
  import opened Wrappers
  import opened Text
  import opened Platform
  import opened Runtimes

  // ---------------------------------------------------------------------------
  // First match over an ordered list of candidates

  /** The first `f(x)` that is `Some`, scanning `xs` from the front. */
  function FirstSome<T, U>(xs: seq<T>, f: T -> Option<U>): Option<U> {
    if xs == [] then None
    else if f(xs[0]).Some? then f(xs[0])
    else FirstSome(xs[1..], f)
  }

  /** A hit at `i` after misses everywhere before it is the result. */
  lemma {:induction false} FirstSomeHitAt<T, U>(xs: seq<T>, f: T -> Option<U>, i: int)
    requires 0 <= i < |xs| && f(xs[i]).Some?
    requires forall k :: 0 <= k < i ==> f(xs[k]).None?
    ensures FirstSome(xs, f) == f(xs[i])
  {
    if i > 0 {
      FirstSomeHitAt(xs[1..], f, i - 1);
    }
  }

  /** The search comes back empty exactly when every candidate misses. */
  lemma {:induction false} FirstSomeMisses<T, U>(xs: seq<T>, f: T -> Option<U>)
    ensures FirstSome(xs, f).None? <==> forall i :: 0 <= i < |xs| ==> f(xs[i]).None?
  {
    if xs != [] {
      FirstSomeMisses(xs[1..], f);
      assert forall i :: 1 <= i < |xs| ==> xs[i] == xs[1..][i - 1];
    }
  }

  /** Where a successful search found its hit: the earliest candidate that hits. */
  lemma {:induction false} FirstSomeIndex<T, U>(xs: seq<T>, f: T -> Option<U>) returns (i: nat)
    requires FirstSome(xs, f).Some?
    ensures i < |xs| && f(xs[i]) == FirstSome(xs, f)
    ensures forall k :: 0 <= k < i ==> f(xs[k]).None?
  {
    if f(xs[0]).Some? {
      i := 0;
    } else {
      var j := FirstSomeIndex(xs[1..], f);
      i := j + 1;
      assert forall k :: 1 <= k <= i ==> xs[k] == xs[1..][k - 1];
    }
  }

  /** The search returns `v` exactly when `v` is the hit of the earliest
      candidate that hits. */
  lemma FirstSomeIsEarliest<T, U>(xs: seq<T>, f: T -> Option<U>, v: U)
    ensures FirstSome(xs, f) == Some(v) <==>
      exists i :: 0 <= i < |xs| && f(xs[i]) == Some(v) && forall k :: 0 <= k < i ==> f(xs[k]).None?
  {
    if FirstSome(xs, f) == Some(v) {
      var i := FirstSomeIndex(xs, f);
    } else {
      forall i | 0 <= i < |xs| && f(xs[i]) == Some(v) && forall k :: 0 <= k < i ==> f(xs[k]).None?
        ensures false
      {
        FirstSomeHitAt(xs, f, i);
      }
    }
  }

  // ---------------------------------------------------------------------------
  // `_which(*names)`

  /** The file names tried in each PATH entry for a command name. */
  function Candidates(name: string): (cs: seq<string>)
    ensures |cs| == 5 && cs[0] == name
  {
    [name, name + ".exe", name + ".cmd", name + ".bat", name + ".ps1"]
  }

  /** `os.environ.get("PATH", "").split(os.pathsep)` */
  function PathEntries(env: Environment, host: Host): seq<string> {
    Split(Lookup(env, "PATH"), host.pathsep)
  }

  /** Probe of one candidate file name inside one PATH entry. */
  function FileProbe(host: Host, entry: string): string -> Option<string> {
    cand => var p := host.join(entry, cand); if host.isFile(p) then Some(p) else None
  }

  /** Probe of one PATH entry: its first candidate that is a file. */
  function EntryProbe(host: Host, candidates: seq<string>): string -> Option<string> {
    entry => FirstSome(candidates, FileProbe(host, entry))
  }

  /** Probe of one command name: `shutil.which` if it answers, else the PATH scan. */
  function NameProbe(host: Host, entries: seq<string>): string -> Option<string> {
    name =>
      if Truthy(host.which(name)) then host.which(name)
      else FirstSome(entries, EntryProbe(host, Candidates(name)))
  }

  function WhichSpec(names: seq<string>, env: Environment, host: Host): Option<string> {
    FirstSome(names, NameProbe(host, PathEntries(env, host)))
  }

  /** What one command name resolves to: `shutil.which`'s answer when it is
      truthy, otherwise the first PATH entry, and within it the first suffix,
      that names an existing file. */
  lemma NameProbeOrder(host: Host, entries: seq<string>, name: string, p: string)
    ensures Truthy(host.which(name)) ==> NameProbe(host, entries)(name) == host.which(name)
    ensures NameProbe(host, entries)(name) == Some(p) && !Truthy(host.which(name)) ==>
      exists j :: 0 <= j < |entries| && EntryProbe(host, Candidates(name))(entries[j]) == Some(p)
        && (forall k :: 0 <= k < j ==> EntryProbe(host, Candidates(name))(entries[k]).None?)
    ensures NameProbe(host, entries)(name) == Some(p) && !Truthy(host.which(name)) ==>
      exists j, m :: 0 <= j < |entries| && 0 <= m < 5
        && p == host.join(entries[j], Candidates(name)[m]) && host.isFile(p)
        && forall k :: 0 <= k < m ==> !host.isFile(host.join(entries[j], Candidates(name)[k]))
  {
    if NameProbe(host, entries)(name) == Some(p) && !Truthy(host.which(name)) {
      var cands := Candidates(name);
      FirstSomeIsEarliest(entries, EntryProbe(host, cands), p);
      var j :| 0 <= j < |entries| && EntryProbe(host, cands)(entries[j]) == Some(p)
        && forall k :: 0 <= k < j ==> EntryProbe(host, cands)(entries[k]).None?;
      FirstSomeIsEarliest(cands, FileProbe(host, entries[j]), p);
      var m :| 0 <= m < |cands| && FileProbe(host, entries[j])(cands[m]) == Some(p)
        && forall k :: 0 <= k < m ==> FileProbe(host, entries[j])(cands[k]).None?;
      assert p == host.join(entries[j], cands[m]) && host.isFile(p);
    }
  }

  /** A command name resolves to nothing exactly when `shutil.which` gives no
      truthy answer and no suffix in any PATH entry names an existing file. */
  lemma NameProbeMisses(host: Host, entries: seq<string>, name: string)
    ensures NameProbe(host, entries)(name).None? <==>
      !Truthy(host.which(name))
      && forall j, m :: 0 <= j < |entries| && 0 <= m < 5 ==> !host.isFile(host.join(entries[j], Candidates(name)[m]))
  {
    var cands := Candidates(name);
    if !Truthy(host.which(name)) {
      FirstSomeMisses(entries, EntryProbe(host, cands));
      forall j | 0 <= j < |entries|
        ensures EntryProbe(host, cands)(entries[j]).None? <==>
          forall m :: 0 <= m < 5 ==> !host.isFile(host.join(entries[j], cands[m]))
      {
        FirstSomeMisses(cands, FileProbe(host, entries[j]));
      }
    }
  }

  method Which(names: seq<string>, env: Environment, host: Host) returns (r: Option<string>)
    ensures r == WhichSpec(names, env, host)
  {
    var entries := Split(Lookup(env, "PATH"), host.pathsep);
    for i := 0 to |names|
      invariant forall k :: 0 <= k < i ==> NameProbe(host, entries)(names[k]).None?
    {
      var name := names[i];
      var path := host.which(name);
      if path.Some? && path.value != "" {
        FirstSomeHitAt(names, NameProbe(host, entries), i);
        return path;
      }
      var found := ScanPath(entries, Candidates(name), host);
      if found.Some? {
        FirstSomeHitAt(names, NameProbe(host, entries), i);
        return found;
      }
    }
    FirstSomeMisses(names, NameProbe(host, entries));
    return None;
  }

  /** The PATH scan inside `_which` for one name: every entry in order, and in
      each entry every candidate file name in order. */
  method ScanPath(entries: seq<string>, candidates: seq<string>, host: Host) returns (r: Option<string>)
    ensures r == FirstSome(entries, EntryProbe(host, candidates))
  {
    for j := 0 to |entries|
      invariant forall k :: 0 <= k < j ==> EntryProbe(host, candidates)(entries[k]).None?
    {
      for m := 0 to |candidates|
        invariant forall k :: 0 <= k < m ==> FileProbe(host, entries[j])(candidates[k]).None?
      {
        var candidatePath := host.join(entries[j], candidates[m]);
        if host.isFile(candidatePath) {
          FirstSomeHitAt(candidates, FileProbe(host, entries[j]), m);
          FirstSomeHitAt(entries, EntryProbe(host, candidates), j);
          return Some(candidatePath);
        }
      }
      FirstSomeMisses(candidates, FileProbe(host, entries[j]));
    }
    FirstSomeMisses(entries, EntryProbe(host, candidates));
    return None;
  }

  // ---------------------------------------------------------------------------
  // `resolve_intertonc(project_root)`

  const CompilerOverride: string := "INTERTONC_PATH"

  /** The build outputs tried after the override, relative to the project root. */
  const BuildOutputs: seq<seq<string>> := [
    ["build", "compiler", "compiler", "Release", "intertonc.exe"],
    ["build", "compiler", "compiler", "Release", "interton_compiler.exe"],
    ["build", "artifacts", "windows", "dist", "bin", "intertonc.exe"]
  ]

  /** The three build outputs under `root`, in the order they are tried. */
  function BuildPaths(root: string, host: Host): (ps: seq<string>)
    ensures |ps| == |BuildOutputs|
  {
    [JoinAll(host, root, BuildOutputs[0]),
     JoinAll(host, root, BuildOutputs[1]),
     JoinAll(host, root, BuildOutputs[2])]
  }

  function CompilerCandidates(env: Environment, root: string, host: Host): (cs: seq<string>)
    ensures |cs| == if IsSet(env, CompilerOverride) then 4 else 3
  {
    (if IsSet(env, CompilerOverride) then [env[CompilerOverride]] else [])
    + BuildPaths(root, host)
  }

  /** The override, when set, is tried first; the three build outputs follow
      in their fixed order. */
  lemma CompilerCandidatesOrder(env: Environment, root: string, host: Host)
    ensures var cs := CompilerCandidates(env, root, host);
      && (IsSet(env, CompilerOverride) ==> cs[0] == env[CompilerOverride])
      && forall i :: 0 <= i < 3 ==> cs[|cs| - 3 + i] == JoinAll(host, root, BuildOutputs[i])
  {
    var cs := CompilerCandidates(env, root, host);
    var builds := BuildPaths(root, host);
    assert cs[|cs| - 3..] == builds;
    forall i | 0 <= i < 3 ensures cs[|cs| - 3 + i] == JoinAll(host, root, BuildOutputs[i]) {
      assert cs[|cs| - 3 + i] == builds[i];
    }
  }

  function ExistsProbe(host: Host): string -> Option<string> {
    c => if host.pathExists(c) then Some(c) else None
  }

  function ResolveSpec(env: Environment, root: string, host: Host): Option<string> {
    var found := FirstSome(CompilerCandidates(env, root, host), ExistsProbe(host));
    if found.Some? then found
    else if Truthy(host.which("intertonc")) then host.which("intertonc")
    else None
  }

  /** The compiler is the earliest existing candidate (override first, then the
      three build outputs); only when none exists is `shutil.which` asked, and
      its answer counts only when it is truthy. */
  lemma ResolveIsFirstExisting(env: Environment, root: string, host: Host, p: string)
    ensures ResolveSpec(env, root, host) == Some(p) <==>
      var cs := CompilerCandidates(env, root, host);
      (exists i :: 0 <= i < |cs| && cs[i] == p && host.pathExists(p)
         && forall k :: 0 <= k < i ==> !host.pathExists(cs[k]))
      || ((forall i :: 0 <= i < |cs| ==> !host.pathExists(cs[i]))
         && host.which("intertonc") == Some(p) && p != "")
  {
    var cs := CompilerCandidates(env, root, host);
    var probe := ExistsProbe(host);
    FirstSomeIsEarliest(cs, probe, p);
    FirstSomeMisses(cs, probe);
    assert forall i :: 0 <= i < |cs| ==> (probe(cs[i]).None? <==> !host.pathExists(cs[i]));
    assert forall i :: 0 <= i < |cs| ==> (probe(cs[i]) == Some(p) <==> cs[i] == p && host.pathExists(p));
  }

  /** A non-empty override that exists wins over everything else. */
  lemma OverrideWins(env: Environment, root: string, host: Host)
    requires IsSet(env, CompilerOverride) && host.pathExists(env[CompilerOverride])
    ensures ResolveSpec(env, root, host) == Some(env[CompilerOverride])
  {
    FirstSomeHitAt(CompilerCandidates(env, root, host), ExistsProbe(host), 0);
  }

  method ResolveIntertonc(env: Environment, root: string, host: Host) returns (r: Option<string>)
    ensures r == ResolveSpec(env, root, host)
  {
    var candidates: seq<string> := [];
    if CompilerOverride in env && env[CompilerOverride] != "" {
      candidates := candidates + [env[CompilerOverride]];
    }
    candidates := candidates + BuildPaths(root, host);
    assert candidates == CompilerCandidates(env, root, host);
    for i := 0 to |candidates|
      invariant forall k :: 0 <= k < i ==> ExistsProbe(host)(candidates[k]).None?
    {
      if host.pathExists(candidates[i]) {
        FirstSomeHitAt(candidates, ExistsProbe(host), i);
        return Some(candidates[i]);
      }
    }
    FirstSomeMisses(candidates, ExistsProbe(host));
    var inPath := host.which("intertonc");
    if inPath.Some? && inPath.value != "" {
      return inPath;
    }
    return None;
  }

  // ---------------------------------------------------------------------------
  // `_ensure_env(env_name, *command_names)`

  /** The environment after `_ensure_env`: untouched when the variable is
      already set, otherwise given the first command found, if any. */
  function Ensured(env: Environment, name: string, commands: seq<string>, host: Host): Environment {
    if IsSet(env, name) then env
    else
      var resolved := WhichSpec(commands, env, host);
      if Truthy(resolved) then env[name := resolved.value] else env
  }

  /** A variable that is set is left alone; an unset one is given the first
      command found, if any, and is set afterwards exactly when one was found;
      no other variable changes. */
  lemma EnsuredSpec(env: Environment, name: string, commands: seq<string>, host: Host)
    ensures var r := Ensured(env, name, commands, host);
      && (IsSet(env, name) ==> r == env)
      && (forall k :: k != name ==> (k in r <==> k in env))
      && (forall k :: k != name && k in env ==> r[k] == env[k])
      && (IsSet(r, name) <==> IsSet(env, name) || Truthy(WhichSpec(commands, env, host)))
      && (!IsSet(env, name) && Truthy(WhichSpec(commands, env, host)) ==>
            r[name] == WhichSpec(commands, env, host).value)
  {
    var resolved := WhichSpec(commands, env, host);
    var r := Ensured(env, name, commands, host);
    if !IsSet(env, name) && Truthy(resolved) {
      assert r == env[name := resolved.value];
    } else {
      assert r == env;
    }
  }

  /** A second call with the same arguments changes nothing. */
  lemma EnsuredIdempotent(env: Environment, name: string, commands: seq<string>, host: Host)
    ensures Ensured(Ensured(env, name, commands, host), name, commands, host)
         == Ensured(env, name, commands, host)
  {
  }

  /** The seven `_ensure_env` calls, in their order. */
  function EnsuredRuntimes(env: Environment, host: Host, rts: seq<Runtime>): Environment
    decreases |rts|
  {
    if rts == [] then env
    else EnsuredRuntimes(Ensured(env, EnvVar(rts[0]), ProbeNames(rts[0]), host), host, rts[1..])
  }

  /** Probing the runtimes never overwrites a variable that was set and never
      touches a variable that is not one of the runtimes' own. */
  lemma {:induction false} EnsuredRuntimesKeeps(env: Environment, host: Host, rts: seq<Runtime>)
    ensures forall k :: IsSet(env, k) ==>
      k in EnsuredRuntimes(env, host, rts) && EnsuredRuntimes(env, host, rts)[k] == env[k]
    ensures forall k :: (forall rt :: rt in rts ==> EnvVar(rt) != k) ==>
      (k in EnsuredRuntimes(env, host, rts) <==> k in env)
      && (k in env ==> EnsuredRuntimes(env, host, rts)[k] == env[k])
    decreases |rts|
  {
    if rts != [] {
      var next := Ensured(env, EnvVar(rts[0]), ProbeNames(rts[0]), host);
      EnsuredSpec(env, EnvVar(rts[0]), ProbeNames(rts[0]), host);
      EnsuredRuntimesKeeps(next, host, rts[1..]);
      assert forall rt :: rt in rts[1..] ==> rt in rts;
      forall k | IsSet(env, k) ensures IsSet(next, k) && next[k] == env[k] {
        if k == EnvVar(rts[0]) {
          assert next == env;
        }
      }
    }
  }

  class Environ {
    /** `os.environ` */
    var vars: Environment

    constructor (initial: Environment)
      ensures vars == initial
    {
      vars := initial;
    }

    method EnsureEnv(name: string, commands: seq<string>, host: Host)
      modifies this
      ensures vars == Ensured(old(vars), name, commands, host)
    {
      if !(name in vars && vars[name] != "") {
        var resolved := Which(commands, vars, host);
        if resolved.Some? && resolved.value != "" {
          vars := vars[name := resolved.value];
        }
      }
    }
  }
}
