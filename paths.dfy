/**
 * A lexical model of the `pathlib` operations the runner uses: a path is
 * a list of components, rooted at `/` or relative to the working
 * directory. Like `pathlib`, nothing here looks at the filesystem or
 * collapses `..`.
 */
module Paths {
  import opened Words

  /** `rooted` for an absolute path; `parts` are its components after the root. */
  datatype Path = Path(rooted: bool, parts: seq<string>)

  /** `p / name` for a single component `name`. */
  function Child(p: Path, name: string): Path {
    Path(p.rooted, p.parts + [name])
  }

  /** `p.parent`: the last component dropped; `/` and `.` are their own parents. */
  function Parent(p: Path): (q: Path)
    ensures q.rooted == p.rooted
    ensures p.parts == [] ==> q == p
    ensures p.parts != [] ==> q.parts + [p.parts[|p.parts| - 1]] == p.parts
  {
    if p.parts == [] then p else Path(p.rooted, p.parts[..|p.parts| - 1])
  }

  /** `p.absolute()` with `cwd` the components of the current working directory. */
  function Absolute(p: Path, cwd: seq<string>): (a: Path)
    ensures a.rooted
    ensures p.rooted ==> a == p
    ensures |p.parts| <= |a.parts| && a.parts[|a.parts| - |p.parts|..] == p.parts
  {
    if p.rooted then p else Path(true, cwd + p.parts)
  }

  /** `p.as_posix()` */
  function AsPosix(p: Path): (text: string)
    ensures p.rooted ==> text != [] && text[0] == '/'
    ensures p.parts == [] ==> text == if p.rooted then "/" else "."
  {
    if p.rooted then "/" + Interleave('/', p.parts)
    else if p.parts == [] then "."
    else Interleave('/', p.parts)
  }

  /**
   * The text of `dir / name` for an absolute `dir` is the text of `dir`,
   * a slash and `name`; only the root itself contributes no second slash.
   */
  lemma ChildAsPosix(dir: Path, name: string)
    requires dir.rooted
    ensures AsPosix(Child(dir, name)) ==
            if dir.parts == [] then "/" + name else AsPosix(dir) + "/" + name
  {
    if dir.parts == [] {
      assert Child(dir, name).parts == [name];
    } else {
      InterleaveSnoc('/', dir.parts, name);
    }
  }

  /** The text of an absolute path avoids the characters (other than `/`) that its components avoid. */
  lemma AbsoluteAsPosixAvoids(p: Path, cs: set<char>)
    requires p.rooted && '/' !in cs
    requires forall i :: 0 <= i < |p.parts| ==> Avoids(p.parts[i], cs)
    ensures Avoids(AsPosix(p), cs)
  {
    InterleaveAvoids('/', p.parts, cs);
    AvoidsAppend("/", Interleave('/', p.parts), cs);
  }
}
