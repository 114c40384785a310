/** The two path helpers the core relies on: the trailing-slash
    normalisation of the mount point and Go's `filepath.Ext`. */
module Paths {
  import opened Common

  /** The mount point with '/' appended only when it does not already end in one. */
  function WithTrailingSlash(p: string): (r: string)
    requires |p| > 0
    ensures |r| > 0 && r[|r| - 1] == '/'
    ensures r == p || r == p + "/"
    ensures r == p <==> p[|p| - 1] == '/'
  {
    if p[|p| - 1] != '/' then p + "/" else p
  }

  /** Go's `filepath.Ext` on a Unix system: the suffix that starts at the
      last '.' of the final path element, or "" when that element has no '.'. */
  function Ext(path: string): (e: string)
    ensures e == "" || (e[0] == '.' && HasSuffix(path, e))
    ensures forall i :: 1 <= i < |e| ==> e[i] != '.' && e[i] != '/'
    decreases |path|
  {
    if path == [] then ""
    else
      var c := path[|path| - 1];
      if c == '/' then ""
      else if c == '.' then "."
      else
        var e := Ext(path[..|path| - 1]);
        if e == "" then "" else e + [c]
  }

  /** A final element "q.s", where s has neither '.' nor '/', has extension ".s". */
  lemma {:induction false} ExtOfDottedSuffix(q: string, s: string)
    requires forall i :: 0 <= i < |s| ==> s[i] != '.' && s[i] != '/'
    ensures Ext(q + "." + s) == "." + s
    decreases |s|
  {
    var p := q + "." + s;
    if s == [] {
      assert p[|p| - 1] == '.';
    } else {
      var s' := s[..|s| - 1];
      ExtOfDottedSuffix(q, s');
      assert p[..|p| - 1] == q + "." + s';
      assert p[|p| - 1] == s[|s| - 1];
      assert "." + s' + [s[|s| - 1]] == "." + s;
    }
  }

  /** The song-name test used on release: the extension is ".mp3" exactly
      when the name ends in ".mp3". */
  lemma ExtIsMp3(name: string)
    ensures Ext(name) == ".mp3" <==> HasSuffix(name, ".mp3")
  {
    if HasSuffix(name, ".mp3") {
      var q := name[..|name| - 4];
      assert name == q + "." + "mp3";
      ExtOfDottedSuffix(q, "mp3");
    }
  }
}
