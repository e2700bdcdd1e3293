/** What the harness asks of its host: the filesystem, `shutil.which`, path
    joining and normalisation, and the process environment. The host is an
    input; nothing here performs I/O. */
module Platform {
  import opened Wrappers

  datatype Host = Host(
    pathExists: string -> bool,         // pathlib.Path.exists
    isFile: string -> bool,             // os.path.isfile
    which: string -> Option<string>,    // shutil.which
    join: (string, string) -> string,   // os.path.join and pathlib's `/`
    normpath: string -> string,         // os.path.normpath
    pathsep: char)                      // os.pathsep

  /** A snapshot of `os.environ`. */
  type Environment = map<string, string>

  /** `os.environ.get(name, "")` */
  function Lookup(env: Environment, name: string): string {
    if name in env then env[name] else ""
  }

  /** `os.environ.get(name)` is truthy: present and not empty. */
  predicate IsSet(env: Environment, name: string) {
    name in env && env[name] != ""
  }

  /** Python truthiness of an optional path: present and not empty. */
  predicate Truthy(p: Option<string>) {
    p.Some? && p.value != ""
  }

  /** `base / parts[0] / parts[1] / ...` */
  function JoinAll(host: Host, base: string, parts: seq<string>): string
    decreases |parts|
  {
    if parts == [] then base else JoinAll(host, host.join(base, parts[0]), parts[1..])
  }
}
