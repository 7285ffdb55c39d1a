/**
 * The image sources of image_streamer.py: the directory listing's filter,
 * sort and optional shuffle, the index-based iterator every source shares,
 * and the `load_streamer` dispatch on the configured type.
 */
module Streamers {
  import opened Wrappers
  import opened PosixPath
  import opened Settings

  /** `str.lower()` on ASCII letters. */
  function Lower(s: string): (r: string)
    ensures |r| == |s|
    ensures forall k :: 0 <= k < |s| ==> r[k] == LowerChar(s[k])
  {
    if |s| == 0 then [] else [LowerChar(s[0])] + Lower(s[1..])
  }

  function LowerChar(c: char): char
  {
    if 'A' <= c <= 'Z' then (c as int + 32) as char else c
  }

  predicate EndsWith(s: string, suffix: string)
  {
    |suffix| <= |s| && s[|s| - |suffix|..] == suffix
  }

  /**
   * `match` in `DirectoryStreamer.__init__`: the lower-cased file name ends
   * with `.` and one of the extensions, each taken as given.
   */
  predicate Matches(p: Path, extensions: seq<string>): (b: bool)
    ensures extensions == [] ==> !b
    ensures b ==> exists k :: 0 <= k < |extensions| && |extensions[k]| < |Name(p)|
                              && Name(p)[|Name(p)| - |extensions[k]| - 1] == '.'
  {
    assert forall k :: 0 <= k < |extensions| && EndsWith(Lower(Name(p)), "." + extensions[k]) ==>
      Lower(Name(p))[|Name(p)| - |extensions[k]| - 1] == ("." + extensions[k])[0];

    exists k :: 0 <= k < |extensions| && EndsWith(Lower(Name(p)), "." + extensions[k])
  }

  /**
   * Extensions are not lower-cased, so one with an upper-case letter matches
   * no file at all.
   */
  lemma UpperCaseExtensionNeverMatches(p: Path, ext: string, i: nat)
    requires i < |ext| && 'A' <= ext[i] <= 'Z'
    ensures !Matches(p, [ext])
  {
    var name, suffix := Lower(Name(p)), "." + ext;
    if |suffix| <= |name| {
      var tail := name[|name| - |suffix|..];
      assert tail[i + 1] == LowerChar(Name(p)[|name| - |suffix| + i + 1]);
      assert tail[i + 1] != suffix[i + 1];
    }
    assert !EndsWith(name, suffix);
  }

  /**
   * `filter(match, found)`: the matching paths, in their original order, each
   * as often as in `found`.
   */
  function Filter(found: seq<Path>, extensions: seq<string>): (r: seq<Path>)
    ensures forall p :: multiset(r)[p] == if Matches(p, extensions) then multiset(found)[p] else 0
    ensures forall p :: p in r <==> p in found && Matches(p, extensions)
  {
    if |found| == 0 then []
    else
      assert found == [found[0]] + found[1..];
      var rest := Filter(found[1..], extensions);
      if Matches(found[0], extensions) then [found[0]] + rest else rest
  }

  predicate Sorted(s: seq<Path>)
  {
    forall i, j :: 0 <= i < j < |s| ==> PathLe(s[i], s[j])
  }

  /** Insertion of one path into a sorted list. */
  function Insert(x: Path, s: seq<Path>): (r: seq<Path>)
    ensures multiset(r) == multiset(s) + multiset{x}
  {
    if |s| == 0 then [x]
    else if PathLe(x, s[0]) then [x] + s
    else
      assert s == [s[0]] + s[1..];
      [s[0]] + Insert(x, s[1..])
  }

  lemma {:induction false} InsertSorted(x: Path, s: seq<Path>)
    requires Sorted(s)
    ensures Sorted(Insert(x, s))
  {
    if |s| == 0 {
    } else if PathLe(x, s[0]) {
      forall k | 0 <= k < |s| ensures PathLe(x, s[k]) {
        if k > 0 {
          PathLeTransitive(x, s[0], s[k]);
        }
      }
      ConsSorted(x, s);
    } else {
      PathLeTotal(x, s[0]);
      var rest := s[1..];
      forall k | 0 <= k < |rest| ensures PathLe(s[0], rest[k]) {
        assert rest[k] == s[k + 1];
      }
      assert Sorted(rest) by {
        forall i, j | 0 <= i < j < |rest| ensures PathLe(rest[i], rest[j]) {
          assert rest[i] == s[i + 1] && rest[j] == s[j + 1];
        }
      }
      InsertSorted(x, rest);
      InsertLowerBound(s[0], x, rest);
      ConsSorted(s[0], Insert(x, rest));
    }
  }

  /** A lower bound of a sorted list can go in front of it. */
  lemma ConsSorted(y: Path, t: seq<Path>)
    requires Sorted(t)
    requires forall k :: 0 <= k < |t| ==> PathLe(y, t[k])
    ensures Sorted([y] + t)
  {
    var r := [y] + t;
    forall i, j | 0 <= i < j < |r| ensures PathLe(r[i], r[j]) {
      assert r[j] == t[j - 1];
      if i > 0 {
        assert r[i] == t[i - 1];
      }
    }
  }

  /** A lower bound of a list and of `x` bounds the list with `x` inserted. */
  lemma InsertLowerBound(y: Path, x: Path, s: seq<Path>)
    requires PathLe(y, x)
    requires forall k :: 0 <= k < |s| ==> PathLe(y, s[k])
    ensures forall k :: 0 <= k < |Insert(x, s)| ==> PathLe(y, Insert(x, s)[k])
  {
    var r := Insert(x, s);
    forall k | 0 <= k < |r| ensures PathLe(y, r[k]) {
      assert r[k] in multiset(r);
      if r[k] != x {
        assert r[k] in multiset(s);
        var m :| 0 <= m < |s| && s[m] == r[k];
      }
    }
  }


  /** `sorted(...)`: ascending by path order, a permutation of its input. */
  function SortPaths(s: seq<Path>): (r: seq<Path>)
    ensures Sorted(r)
    ensures multiset(r) == multiset(s)
  {
    if |s| == 0 then []
    else
      assert s == [s[0]] + s[1..];
      InsertSorted(s[0], SortPaths(s[1..]));
      Insert(s[0], SortPaths(s[1..]))
  }

  /**
   * The values `random.shuffle` draws: at step `k` it picks `j` in
   * `0..n-1-k` to swap with position `n-1-k`.
   */
  predicate ValidDraws(draws: seq<nat>, n: nat)
  {
    |draws| == (if n == 0 then 0 else n - 1) &&
    forall k :: 0 <= k < |draws| ==> draws[k] <= n - 1 - k
  }

  /**
   * `random.shuffle`, with its random draws given: from the last position
   * down to the second, swap each with a drawn earlier-or-same position. The
   * result is a permutation of the input.
   */
  method Shuffle<T>(xs: seq<T>, draws: seq<nat>) returns (ys: seq<T>)
    requires ValidDraws(draws, |xs|)
    ensures |ys| == |xs|
    ensures multiset(ys) == multiset(xs)
  {
    ys := xs;
    var i := |xs| - 1;
    var k := 0;
    while i >= 1
      invariant |ys| == |xs|
      invariant -1 <= i < |xs| && (i >= 0 ==> k == |xs| - 1 - i)
      invariant i >= 1 ==> k < |draws|
      invariant multiset(ys) == multiset(xs)
    {
      var j := draws[k];
      ys := Swap(ys, i, j);
      i := i - 1;
      k := k + 1;
    }
  }

  /** `x[i], x[j] = x[j], x[i]` */
  function Swap<T>(s: seq<T>, i: nat, j: nat): (r: seq<T>)
    requires i < |s| && j < |s|
    ensures |r| == |s| && r[i] == s[j] && r[j] == s[i]
    ensures forall k :: 0 <= k < |s| && k != i && k != j ==> r[k] == s[k]
    ensures multiset(r) == multiset(s)
  {
    var r := s[i := s[j]][j := s[i]];
    if i == j then r
    else
      assert multiset(s[i := s[j]]) == multiset(s) - multiset{s[i]} + multiset{s[j]};
      r
  }

  /**
   * A source of images: `StreamerBase` with the `paths` list of its
   * subclass. `get(index)` opens `paths[index]`; only the path is modelled.
   */
  class Streamer {
    var paths: seq<Path>
    var current: nat

    /** `_current` never passes `len(paths)`. */
    ghost predicate Valid()
      reads this
    {
      current <= |paths|
    }

    /**
     * `DirectoryStreamer.__init__`: keep the listed paths that match, sort
     * them, and shuffle them if asked. `found` is what `rglob(pattern)`
     * returned; `draws` are the shuffle's random choices.
     */
    constructor FromDirectory(found: seq<Path>, extensions: seq<string>, randomize: bool, draws: seq<nat>)
      requires randomize ==> ValidDraws(draws, |Filter(found, extensions)|)
      ensures Valid() && current == 0
      ensures !randomize ==> paths == SortPaths(Filter(found, extensions))
      ensures multiset(paths) == multiset(Filter(found, extensions))
    {
      var sorted := SortPaths(Filter(found, extensions));
      if randomize {
        sorted := Shuffle(sorted, draws);
      }
      paths := sorted;
      current := 0;
    }

    /** `__len__` */
    function Length(): (n: nat)
      reads this
      ensures Valid() ==> current <= n
    {
      |paths|
    }

    /** `__iter__` returns the streamer itself, without going back to the start. */
    method Iter() returns (s: Streamer)
      ensures s == this
    {
      s := this;
    }

    /**
     * `__next__`: the next path and one step on, or StopIteration (None)
     * once `_current` has reached `len(paths)`, and again on every later call.
     */
    method Next() returns (item: Option<Path>)
      requires Valid()
      modifies this`current
      ensures Valid()
      ensures old(current) == |paths| ==> item == None && current == old(current)
      ensures old(current) < |paths| ==> item == Some(paths[old(current)]) && current == old(current) + 1
    {
      if current == |paths| {
        return None;
      }
      item := Some(paths[current]);
      current := current + 1;
    }
  }

  /**
   * A `for` loop over a streamer: it yields the paths from `_current` to the
   * end, in order, and leaves the streamer exhausted, so a second loop yields
   * nothing.
   */
  method Drain(s: Streamer) returns (items: seq<Path>)
    requires s.Valid()
    modifies s`current
    ensures s.Valid() && s.current == |s.paths|
    ensures items == old(s.paths[s.current..])
  {
    var it := s.Iter();
    items := [];
    while true
      invariant it == s && s.Valid() && s.paths == old(s.paths)
      invariant old(s.current) <= s.current
      invariant items == s.paths[old(s.current)..s.current]
      decreases |s.paths| - s.current
    {
      var next := it.Next();
      if next.None? {
        return;
      }
      items := items + [next.value];
    }
  }

  /** A fresh streamer yields all its paths, then a second traversal yields none. */
  method TraverseTwice(s: Streamer) returns (first: seq<Path>, second: seq<Path>)
    requires s.Valid() && s.current == 0
    modifies s`current
    ensures first == old(s.paths) && second == []
  {
    first := Drain(s);
    second := Drain(s);
  }

  /** The arguments load_streamer passes to `DirectoryStreamer(...)`. */
  datatype DirectoryRequest = DirectoryRequest(d: Value, extensions: Value, pattern: Value, randomize: Value)

  /**
   * The failure of load_streamer for every other type: `data['type']`
   * subscripts the `_StreamerConfig` dataclass, a TypeError.
   */
  datatype LoadError = NotSubscriptable

  /**
   * `load_streamer`: a `DirectoryStreamer` type builds a directory source from
   * the configured path, extensions, pattern and randomize flag; any other
   * type, `FTPStreamer` included, fails at the subscript.
   */
  function LoadStreamer(config: Config): (r: Result<DirectoryRequest, LoadError>)
    ensures r.Success? <==> config.streamer.streamerType == Str("DirectoryStreamer")
    ensures r.Success? ==> r.value == DirectoryRequest(config.streamer.path, config.streamer.extensions,
                                                       config.streamer.pattern, config.streamer.randomize)
    ensures r.Failure? ==> r.error == NotSubscriptable
  {
    var data := config.streamer;
    if data.streamerType == Str("DirectoryStreamer") then
      Success(DirectoryRequest(data.path, data.extensions, data.pattern, data.randomize))
    else
      Failure(NotSubscriptable)
  }
}
