/** File-system paths as the client builds them with `PathBuf::join` and
    `PathBuf::push`: a path is its list of components, and joining a
    relative path appends its components. No file system is consulted. */
module Paths {

  type Path = seq<string>

  /** `base.join(name)` / `base.push(name)` for a single-component name. */
  function Join(base: Path, name: string): (r: Path)
    ensures |r| == |base| + 1 && r[..|base|] == base && r[|base|] == name
  {
    base + [name]
  }

  /** `p` lies strictly inside `dir`. */
  predicate IsUnder(p: Path, dir: Path)
  {
    |dir| < |p| && p[..|dir|] == dir
  }

  /** Different names joined to the same directory give different paths. */
  lemma JoinDistinct(base: Path, a: string, b: string)
    requires a != b
    ensures Join(base, a) != Join(base, b)
  {
    assert Join(base, a)[|base|] == a;
  }
}
