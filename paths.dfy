/** `os.path.splitext` on a file name as `os.walk` yields it (no separators). */
module Paths {

  predicate AllDots(s: string) {
    forall i :: 0 <= i < |s| ==> s[i] == '.'
  }

  /** Index of the last '.', or -1 when there is none. */
  function LastDot(s: string): (r: int)
    ensures -1 <= r < |s|
    ensures r >= 0 ==> s[r] == '.'
    ensures forall k :: r < k < |s| ==> s[k] != '.'
  {
    if s == [] then -1 else if s[|s| - 1] == '.' then |s| - 1 else LastDot(s[..|s| - 1])
  }

  /** Splits at the last dot, unless everything before that dot is dots
      (".it" and "..it" have no extension). */
  function SplitExt(name: string): (r: (string, string))
    ensures r.0 + r.1 == name
    ensures r.1 != "" ==> r.1[0] == '.' && '.' !in r.1[1..] && !AllDots(r.0)
  {
    var d := LastDot(name);
    if d < 0 || AllDots(name[..d]) then (name, "")
    else (name[..d], name[d..])
  }

  /** The converse: a name made of a stem that is not all dots and a
      dot-led, dot-free suffix splits into exactly those two. */
  lemma SplitExtOfStemAndExt(stem: string, ext: string)
    requires !AllDots(stem)
    requires |ext| >= 1 && ext[0] == '.' && '.' !in ext[1..]
    ensures SplitExt(stem + ext) == (stem, ext)
  {
    var name := stem + ext;
    assert forall k :: |stem| < k < |name| ==> name[k] == ext[1..][k - |stem| - 1];
    assert name[|stem|] == '.';
    assert name[..|stem|] == stem;
  }
}
