/** The optional language runtimes an example can embed: the marker that flags
    each one in an example's text, the environment variable that locates it,
    and the executable names probed for it. */
module Runtimes {

  datatype Runtime = Python | JavaScript | TypeScript | C | Cpp | CSharp | Java

  /** The fixed order in which markers are checked and runtimes are probed. */
  const Order: seq<Runtime> := [Python, JavaScript, TypeScript, C, Cpp, CSharp, Java]

  /** Position of a runtime in `Order`. */
  function Rank(rt: Runtime): (i: nat)
    ensures i < |Order| && Order[i] == rt
  {
    match rt
    case Python => 0
    case JavaScript => 1
    case TypeScript => 2
    case C => 3
    case Cpp => 4
    case CSharp => 5
    case Java => 6
  }

  function Marker(rt: Runtime): string {
    match rt
    case Python => "<py>"
    case JavaScript => "<js>"
    case TypeScript => "<ts>"
    case C => "<c>"
    case Cpp => "<cpp>"
    case CSharp => "<cs>"
    case Java => "<j>"
  }

  function EnvVar(rt: Runtime): string {
    match rt
    case Python => "INTERTON_PY"
    case JavaScript => "INTERTON_NODE"
    case TypeScript => "INTERTON_TS"
    case C => "INTERTON_C"
    case Cpp => "INTERTON_CPP"
    case CSharp => "INTERTON_CSHARP"
    case Java => "INTERTON_JAVA"
  }

  /** Each runtime has a variable of its own. */
  lemma EnvVarDistinct(a: Runtime, b: Runtime)
    ensures EnvVar(a) == EnvVar(b) ==> a == b
  {
    if a != b {
      assert EnvVar(a)[8..] != EnvVar(b)[8..] || |EnvVar(a)| != |EnvVar(b)|;
    }
  }

  /** Executable names tried, in order, when the runtime's variable is unset. */
  function ProbeNames(rt: Runtime): seq<string> {
    match rt
    case Python => ["python", "python3", "py"]
    case JavaScript => ["node"]
    case TypeScript => ["node", "ts-node"]
    case C => ["clang++", "g++", "clang", "gcc"]
    case Cpp => ["clang++", "g++"]
    case CSharp => ["csc", "mcs", "dotnet", "interton-ffi-csharp", "interton_csharp_runner"]
    case Java => ["javac", "interton-ffi-java", "interton_java_runner"]
  }
}
