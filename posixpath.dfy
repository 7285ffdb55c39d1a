/**
 * The part of Python's `pathlib.PurePosixPath` the slideshow relies on:
 * `name`, `parent`, and the ordering `sorted` uses.
 */
module PosixPath {

  /**
   * A path as pathlib splits it: whether it starts at `/`, then its
   * components. `Path("/")` has no components; so has `Path(".")`, the
   * relative path pathlib reaches by taking parents of a relative path.
   */
  datatype Path = Path(absolute: bool, parts: seq<string>)

  const Root: Path := Path(true, [])

  /** `p.name`: the last component, `""` for `/` and for `.`. */
  function Name(p: Path): string
  {
    if |p.parts| == 0 then "" else p.parts[|p.parts| - 1]
  }

  /** `p.parent`: drop the last component; `/` and `.` are their own parents. */
  function Parent(p: Path): (q: Path)
    ensures q.absolute == p.absolute
    ensures |p.parts| > 0 ==> q.parts + [Name(p)] == p.parts
    ensures |p.parts| == 0 ==> q == p
  {
    if |p.parts| == 0 then p else Path(p.absolute, p.parts[..|p.parts| - 1])
  }

  function Min(a: int, b: int): int
  {
    if a <= b then a else b
  }

  /** The `i`-th ancestor, `p.parent` taken `i` times: the path cut `i` components short. */
  function Ancestor(p: Path, i: nat): (a: Path)
    ensures a.absolute == p.absolute
    ensures a.parts == p.parts[..|p.parts| - Min(i, |p.parts|)]
  {
    if i == 0 then p else Parent(Ancestor(p, i - 1))
  }

  /**
   * The components pathlib compares paths by: an absolute path's list starts
   * with the root `/`.
   */
  function SortKey(p: Path): seq<string>
  {
    (if p.absolute then ["/"] else []) + p.parts
  }

  /** Python's `<=` on `str`: lexicographic by code point, a prefix first. */
  predicate StrLe(a: string, b: string)
  {
    if |a| == 0 then true
    else if |b| == 0 then false
    else if a[0] != b[0] then a[0] < b[0]
    else StrLe(a[1..], b[1..])
  }

  /**
   * Python's `<=` on lists of strings: decided at the first position where
   * the elements differ, a prefix first.
   */
  predicate PartsLe(a: seq<string>, b: seq<string>)
  {
    if |a| == 0 then true
    else if |b| == 0 then false
    else if a[0] != b[0] then StrLe(a[0], b[0])
    else PartsLe(a[1..], b[1..])
  }

  /** Path ordering as `sorted` uses it. */
  predicate PathLe(p: Path, q: Path)
  {
    PartsLe(SortKey(p), SortKey(q))
  }

  lemma {:induction false} StrLeTotal(a: string, b: string)
    ensures StrLe(a, b) || StrLe(b, a)
  {
    if |a| > 0 && |b| > 0 && a[0] == b[0] {
      StrLeTotal(a[1..], b[1..]);
    }
  }

  lemma {:induction false} StrLeAntisymmetric(a: string, b: string)
    requires StrLe(a, b) && StrLe(b, a)
    ensures a == b
  {
    if |a| > 0 && |b| > 0 {
      StrLeAntisymmetric(a[1..], b[1..]);
      assert a == [a[0]] + a[1..] && b == [b[0]] + b[1..];
    }
  }

  lemma {:induction false} StrLeTransitive(a: string, b: string, c: string)
    requires StrLe(a, b) && StrLe(b, c)
    ensures StrLe(a, c)
  {
    if |a| > 0 && |b| > 0 && |c| > 0 && a[0] == b[0] == c[0] {
      StrLeTransitive(a[1..], b[1..], c[1..]);
    }
  }

  lemma {:induction false} PartsLeTotal(a: seq<string>, b: seq<string>)
    ensures PartsLe(a, b) || PartsLe(b, a)
  {
    if |a| > 0 && |b| > 0 {
      if a[0] == b[0] {
        PartsLeTotal(a[1..], b[1..]);
      } else {
        StrLeTotal(a[0], b[0]);
      }
    }
  }

  lemma {:induction false} PartsLeTransitive(a: seq<string>, b: seq<string>, c: seq<string>)
    requires PartsLe(a, b) && PartsLe(b, c)
    ensures PartsLe(a, c)
  {
    if |a| > 0 && |b| > 0 && |c| > 0 {
      if a[0] == b[0] && b[0] == c[0] {
        PartsLeTransitive(a[1..], b[1..], c[1..]);
      } else if a[0] == b[0] {
        assert StrLe(b[0], c[0]);
      } else if b[0] == c[0] {
        assert StrLe(a[0], b[0]);
      } else {
        StrLeTransitive(a[0], b[0], c[0]);
        if a[0] == c[0] {
          StrLeAntisymmetric(a[0], b[0]);
        }
      }
    }
  }

  lemma PathLeTotal(p: Path, q: Path)
    ensures PathLe(p, q) || PathLe(q, p)
  {
    PartsLeTotal(SortKey(p), SortKey(q));
  }

  lemma PathLeTransitive(p: Path, q: Path, r: Path)
    requires PathLe(p, q) && PathLe(q, r)
    ensures PathLe(p, r)
  {
    PartsLeTransitive(SortKey(p), SortKey(q), SortKey(r));
  }

  /**
   * The ordering is over components, not over the text: `/a/b` sorts before
   * `/a-c`, although `"/a/b" > "/a-c"` as strings (`'/'` follows `'-'`).
   */
  lemma ComponentOrderExample()
    ensures PathLe(Path(true, ["a", "b"]), Path(true, ["a-c"]))
    ensures !StrLe("/a/b", "/a-c")
  {
  }
}
