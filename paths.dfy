/**
 * `System.IO.Path` on a Unix host, where '/' is the only directory
 * separator and a path is rooted exactly when it starts with one.
 */
module Paths {

  const Separator: char := '/'

  predicate IsRooted(p: string) {
    |p| > 0 && p[0] == Separator
  }

  /** `Path.IsPathFullyQualified`: on Unix, a rooted path is fully qualified. */
  predicate IsPathFullyQualified(p: string) {
    IsRooted(p)
  }

  predicate EndsInSeparator(p: string) {
    |p| > 0 && p[|p| - 1] == Separator
  }

  /** The separator `Path.Join` puts between two non-empty parts, if one is needed. */
  function Glue(first: string, second: string): string {
    if EndsInSeparator(first) || IsRooted(second) then "" else [Separator]
  }

  /**
   * `Path.Combine(first, second)`: an empty part is dropped, a rooted second
   * part replaces the first, otherwise the two are joined with one separator.
   */
  function Combine(first: string, second: string): string {
    if |second| == 0 then first
    else if |first| == 0 then second
    else if IsRooted(second) then second
    else first + Glue(first, second) + second
  }

  /**
   * `Path.Combine(first, second, third)`, following the case analysis of the
   * three-argument overload rather than nesting the two-argument one.
   */
  function Combine3(first: string, second: string, third: string): string {
    if |first| == 0 then Combine(second, third)
    else if |second| == 0 then Combine(first, third)
    else if |third| == 0 then Combine(first, second)
    else if IsRooted(third) then third
    else if IsRooted(second) then Combine(second, third)
    else first + Glue(first, second) + second + Glue(second, third) + third
  }

  /** The three-part overload agrees with combining twice. */
  lemma Combine3IsNested(first: string, second: string, third: string)
    ensures Combine3(first, second, third) == Combine(Combine(first, second), third)
  {
    if |first| > 0 && |second| > 0 && |third| > 0 && !IsRooted(third) && !IsRooted(second) {
      var fs := first + Glue(first, second) + second;
      assert fs[|fs| - 1] == second[|second| - 1];
      assert Glue(fs, third) == Glue(second, third);
    }
  }

  /** `Path.GetFileName`: the part after the last separator. */
  function GetFileName(p: string): (name: string)
    ensures Separator !in name
    ensures |name| <= |p| && name == p[|p| - |name|..]
  {
    if |p| == 0 || p[|p| - 1] == Separator then ""
    else GetFileName(p[..|p| - 1]) + [p[|p| - 1]]
  }

  lemma {:induction false} FileNameAfterSeparator(dir: string, name: string)
    requires Separator !in name
    requires dir == "" || EndsInSeparator(dir)
    ensures GetFileName(dir + name) == name
    decreases |name|
  {
    if |name| == 0 {
      assert dir + name == dir;
    } else {
      var p, init, last := dir + name, name[..|name| - 1], name[|name| - 1];
      assert last in name;
      assert p[|p| - 1] == last != Separator;
      assert p[..|p| - 1] == dir + init;
      assert GetFileName(p) == GetFileName(dir + init) + [last];
      assert Separator !in init by { assert forall c :: c in init ==> c in name; }
      FileNameAfterSeparator(dir, init);
      assert name == init + [last];
    }
  }

  /** Combining a directory with a plain file name yields a path whose file name is that name. */
  lemma FileNameOfCombine(dir: string, name: string)
    requires Separator !in name && |name| > 0
    ensures GetFileName(Combine(dir, name)) == name
  {
    assert name[0] in name;
    assert !IsRooted(name);
    if |dir| == 0 {
      assert Combine(dir, name) == name;
      FileNameAfterSeparator("", name);
      assert "" + name == name;
    } else if EndsInSeparator(dir) {
      assert Combine(dir, name) == dir + name;
      FileNameAfterSeparator(dir, name);
    } else {
      var d := dir + [Separator];
      assert Combine(dir, name) == d + name;
      assert d[|d| - 1] == Separator;
      FileNameAfterSeparator(d, name);
    }
  }
}
