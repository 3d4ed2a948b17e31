/** The documents directory as FileManager shows it: a listing of files, and the three
    operations the app uses on it (list, move, remove), each of which may fail. */
module Files {
  import opened Wrappers
  import opened Seqs
  import opened Paths

  /** The predicate "lies directly in `dir`". */
  function InDir(dir: seq<string>): Url -> bool {
    (u: Url) => u.dir == dir
  }

  /** `contentsOfDirectory(at: dir)` when it does not throw: the entries of `dir`, in listing order. */
  function Listing(entries: seq<Url>, dir: seq<string>): (r: seq<Url>)
    ensures forall i :: 0 <= i < |r| ==> r[i].dir == dir && r[i] in entries
    ensures forall i :: 0 <= i < |entries| && entries[i].dir == dir ==> entries[i] in r
  {
    Filter(entries, InDir(dir))
  }

  /** `moveItem(at: src, to: dst)` does not throw exactly when the environment lets it
      succeed and the source exists. */
  predicate CanMove(entries: seq<Url>, src: Url, fails: bool) {
    !fails && src in entries
  }

  /** The listing after a successful move: `dst` takes the place of `src`, replacing any
      earlier file of that name. */
  function Moved(entries: seq<Url>, src: Url, dst: Url): (r: seq<Url>)
    requires Distinct(entries) && src in entries
    ensures Distinct(r)
    ensures dst in r && (src != dst ==> src !in r)
    ensures forall u :: u != src && u != dst ==> (u in r <==> u in entries)
  {
    if src == dst then entries
    else
      var rest := Without(entries, dst);
      WithoutDistinct(entries, dst);
      WithoutMembers(entries, dst);
      ReplaceDistinct(rest, src, dst);
      ReplaceMembers(rest, src, dst);
      Replace(rest, src, dst)
  }

  /** `removeItem(at: u)` does not throw exactly when the environment lets it succeed and
      the file exists. */
  predicate CanRemove(entries: seq<Url>, u: Url, fails: bool) {
    !fails && u in entries
  }

  /** The listing after `u` is written for the first time (a recorder creating its file);
      a file that already exists is overwritten in place. */
  function Created(entries: seq<Url>, u: Url): (r: seq<Url>)
    requires Distinct(entries)
    ensures Distinct(r) && u in r
    ensures forall x :: x != u ==> (x in r <==> x in entries)
  {
    if u in entries then entries
    else
      assert Distinct(entries + [u]);
      entries + [u]
  }

  /** FileManager.default, reduced to the files it lists. */
  class FileStore {
    var entries: seq<Url>

    ghost predicate Valid()
      reads this
    {
      Distinct(entries)
    }

    constructor (initial: seq<Url>)
      requires Distinct(initial)
      ensures Valid() && entries == initial
    {
      entries := initial;
    }

    /** `contentsOfDirectory(at: dir, includingPropertiesForKeys: nil)`; None when it throws. */
    method ContentsOfDirectory(dir: seq<string>, fails: bool) returns (r: Option<seq<Url>>)
      ensures fails <==> r.None?
      ensures r.Some? ==> r.value == Listing(entries, dir)
    {
      if fails {
        r := None;
      } else {
        r := Some(Filter(entries, InDir(dir)));
      }
    }

    /** `moveItem(at: src, to: dst)`; `ok` is false when it throws, and then nothing moved. */
    method MoveItem(src: Url, dst: Url, fails: bool) returns (ok: bool)
      requires Valid()
      modifies this
      ensures Valid()
      ensures ok == CanMove(old(entries), src, fails)
      ensures entries == if ok then Moved(old(entries), src, dst) else old(entries)
    {
      ok := CanMove(entries, src, fails);
      if ok {
        entries := Moved(entries, src, dst);
      }
    }

    /** `removeItem(at: u)`; `ok` is false when it throws, and then nothing was removed. */
    method RemoveItem(u: Url, fails: bool) returns (ok: bool)
      requires Valid()
      modifies this
      ensures Valid()
      ensures ok == CanRemove(old(entries), u, fails)
      ensures entries == if ok then Without(old(entries), u) else old(entries)
    {
      ok := CanRemove(entries, u, fails);
      if ok {
        WithoutDistinct(entries, u);
        entries := Without(entries, u);
      }
    }

    /** The file an audio recorder writes to once it records. */
    method CreateFile(u: Url)
      requires Valid()
      modifies this
      ensures Valid()
      ensures entries == Created(old(entries), u)
    {
      entries := Created(entries, u);
    }
  }
}
