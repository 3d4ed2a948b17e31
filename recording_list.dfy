/** RecordingsListViewModel: the in-memory list of recordings in the documents directory, and
    renaming and deleting them through FileManager. A rename or delete changes the list only
    when the file operation succeeds. */
module RecordingList {
  import opened Wrappers
  import opened Seqs
  import opened Paths
  import opened Files

  /** `$0.pathExtension == "m4a"`: exactly the names that end in ".m4a" after at least one
      other character. */
  predicate IsAudio(u: Url)
    ensures IsAudio(u) <==> |u.name| > 4 && u.name[|u.name| - 4..] == ".m4a"
  {
    if |u.name| > 4 && u.name[|u.name| - 4..] == ".m4a" then
      var base := u.name[..|u.name| - 4];
      assert u.name == base + ".m4a";
      AudioExtension(base);
      PathExtension(u.name) == "m4a"
    else
      PathExtension(u.name) == "m4a"
  }

  /** The audio files of a directory listing, in listing order. */
  function AudioOnly(listing: seq<Url>): (r: seq<Url>)
    ensures forall i :: 0 <= i < |r| ==> IsAudio(r[i]) && r[i] in listing
    ensures forall i :: 0 <= i < |listing| && IsAudio(listing[i]) ==> listing[i] in r
  {
    Filter(listing, IsAudio)
  }

  /** The list the view-model shows, and the documents directory it was read from. */
  datatype Catalog = Catalog(recordings: seq<Url>, files: seq<Url>)

  /** `oldURL.deletingLastPathComponent().appendingPathComponent("\(newName).m4a")`. The new
      file counts as audio unless the name is empty: ".m4a" is a hidden file. */
  function RenameTarget(oldUrl: Url, newName: string): (r: Url)
    ensures r.dir == oldUrl.dir && r.name == newName + ".m4a"
    ensures IsAudio(r) <==> newName != ""
  {
    AudioExtension(newName);
    Sibling(oldUrl, newName + ".m4a")
  }

  /** `fetchRecordings()`: when listing the documents directory throws, the list stays as it
      was; otherwise it becomes exactly the listed files whose extension is "m4a", in listing
      order. */
  function Fetch(c: Catalog, listFails: bool): (r: Catalog)
    ensures r.files == c.files
    ensures listFails ==> r == c
    ensures !listFails ==> r.recordings == AudioOnly(Listing(c.files, Documents))
  {
    if listFails then c else c.(recordings := AudioOnly(Listing(c.files, Documents)))
  }

  /** `renameRecording(at: index, to: newName)`: when the move succeeds, only the entry at
      `index` changes, to the new file in the same directory; when it throws, nothing changes. */
  function Rename(c: Catalog, index: nat, newName: string, moveFails: bool): (r: Catalog)
    requires index < |c.recordings| && Distinct(c.files)
    ensures |r.recordings| == |c.recordings|
    ensures forall j :: 0 <= j < |c.recordings| && j != index ==> r.recordings[j] == c.recordings[j]
    ensures var src := c.recordings[index];
      if CanMove(c.files, src, moveFails) then
        && r.recordings[index] == RenameTarget(src, newName)
        && r.files == Moved(c.files, src, RenameTarget(src, newName))
      else r == c
  {
    var src := c.recordings[index];
    var dst := RenameTarget(src, newName);
    if CanMove(c.files, src, moveFails) then
      Catalog(c.recordings[index := dst], Moved(c.files, src, dst))
    else c
  }

  /** `deleteRecording(at: index)`: when the removal succeeds, exactly the entry at `index`
      leaves the list and the rest keep their order; when it throws, nothing changes. */
  function Delete(c: Catalog, index: nat, removeFails: bool): (r: Catalog)
    requires index < |c.recordings|
    ensures var u := c.recordings[index];
      if CanRemove(c.files, u, removeFails) then
        && r.recordings == RemoveAt(c.recordings, index)
        && r.files == Without(c.files, u)
      else r == c
  {
    var u := c.recordings[index];
    if CanRemove(c.files, u, removeFails) then
      Catalog(RemoveAt(c.recordings, index), Without(c.files, u))
    else c
  }

  /** The list shows exactly the audio files of the documents directory, in listing order. */
  predicate Synced(c: Catalog) {
    Distinct(c.files) && c.recordings == AudioOnly(Listing(c.files, Documents))
  }

  /** A successful fetch brings the list in line with the directory. */
  lemma FetchSyncs(c: Catalog)
    requires Distinct(c.files)
    ensures Synced(Fetch(c, false))
  {
  }

  /** A list in line with the directory holds each file once, all of them audio files of the
      documents directory. */
  lemma SyncedShape(c: Catalog)
    requires Synced(c)
    ensures Distinct(c.recordings)
    ensures forall i :: 0 <= i < |c.recordings| ==>
      c.recordings[i] in c.files && c.recordings[i].dir == Documents && IsAudio(c.recordings[i])
  {
    FilterDistinct(c.files, InDir(Documents));
    FilterDistinct(Listing(c.files, Documents), IsAudio);
  }

  /** Renaming to a non-empty name keeps the list in line with the directory, provided the new
      name is not that of another file already there: the renamed file is still an audio file
      of the same directory, and it sits where the old one was. */
  lemma RenameKeepsSync(c: Catalog, index: nat, newName: string, moveFails: bool)
    requires Synced(c) && index < |c.recordings| && newName != ""
    requires var src := c.recordings[index];
      RenameTarget(src, newName) == src || RenameTarget(src, newName) !in c.files
    ensures Synced(Rename(c, index, newName, moveFails))
  {
    SyncedShape(c);
    var src := c.recordings[index];
    var dst := RenameTarget(src, newName);
    if CanMove(c.files, src, moveFails) && src != dst {
      WithoutAbsent(c.files, dst);
      assert Moved(c.files, src, dst) == Replace(c.files, src, dst);
      ReplaceKeepsSync(c, index, dst);
    }
  }

  /** Putting a new audio file of the same directory in place of a listed recording, in the
      directory and in the list alike, keeps the two in line. */
  lemma ReplaceKeepsSync(c: Catalog, index: nat, dst: Url)
    requires Synced(c) && index < |c.recordings|
    requires var src := c.recordings[index]; dst.dir == src.dir && IsAudio(dst) && dst !in c.files
    ensures var src := c.recordings[index];
      Synced(Catalog(c.recordings[index := dst], Replace(c.files, src, dst)))
  {
    SyncedShape(c);
    var src := c.recordings[index];
    assert IsAudio(src) && src.dir == Documents;
    ReplaceDistinct(c.files, src, dst);
    FilterReplace(c.files, src, dst, InDir(Documents));
    FilterReplace(Listing(c.files, Documents), src, dst, IsAudio);
    ReplaceAt(c.recordings, index, dst);
  }

  /** Renaming to the empty name, which is what the rename sheet holds until something is
      typed, moves the file to ".m4a": the list shows it, but it is no audio file, so the next
      fetch drops it and the recording disappears from the list. */
  lemma EmptyNameRenameDropsRecording(c: Catalog, index: nat)
    requires Synced(c) && index < |c.recordings|
    ensures var r := Rename(c, index, "", false);
      && r.recordings[index] == Url(Documents, ".m4a")
      && r.recordings[index] in r.files
      && r.recordings[index] !in Fetch(r, false).recordings
      && !Synced(r)
  {
    SyncedShape(c);
    var r := Rename(c, index, "", false);
    assert !IsAudio(r.recordings[index]);
  }

  /** The rename with an empty name refused, as the sheet's "Rename" button evidently
      intends. */
  function RenameUnlessEmpty(c: Catalog, index: nat, newName: string, moveFails: bool): (r: Catalog)
    requires index < |c.recordings| && Distinct(c.files)
    ensures newName == "" ==> r == c
    ensures |r.recordings| == |c.recordings|
    ensures IsAudio(c.recordings[index]) ==> IsAudio(r.recordings[index])
  {
    if newName == "" then c else Rename(c, index, newName, moveFails)
  }

  /** With empty names refused, every rename to a name not already taken keeps the list in
      line with the directory. */
  lemma RenameUnlessEmptyKeepsSync(c: Catalog, index: nat, newName: string, moveFails: bool)
    requires Synced(c) && index < |c.recordings|
    requires var src := c.recordings[index];
      newName != "" ==> RenameTarget(src, newName) == src || RenameTarget(src, newName) !in c.files
    ensures Synced(RenameUnlessEmpty(c, index, newName, moveFails))
  {
    if newName != "" {
      RenameKeepsSync(c, index, newName, moveFails);
    }
  }

  /** Deleting keeps the list in line with the directory. */
  lemma DeleteKeepsSync(c: Catalog, index: nat, removeFails: bool)
    requires Synced(c) && index < |c.recordings|
    ensures Synced(Delete(c, index, removeFails))
  {
    SyncedShape(c);
    var u := c.recordings[index];
    if CanRemove(c.files, u, removeFails) {
      WithoutDistinct(c.files, u);
      FilterCommutes(c.files, NotEqualTo(u), InDir(Documents));
      FilterCommutes(Listing(c.files, Documents), NotEqualTo(u), IsAudio);
      WithoutAt(c.recordings, index);
    }
  }

  /** `RecordingsListViewModel` itself, over `FileManager.default`. */
  class RecordingsListViewModel {
    var recordings: seq<Url>
    const fileManager: FileStore

    ghost function State(): Catalog
      reads this, fileManager
    {
      Catalog(recordings, fileManager.entries)
    }

    ghost predicate Valid()
      reads this, fileManager
    {
      fileManager.Valid()
    }

    /** `init()` starts from an empty list and fetches. */
    constructor (fm: FileStore, listFails: bool)
      requires fm.Valid()
      ensures Valid() && fileManager == fm
      ensures State() == Fetch(Catalog([], fm.entries), listFails)
    {
      recordings := [];
      fileManager := fm;
      new;
      FetchRecordings(listFails);
    }

    method FetchRecordings(listFails: bool)
      modifies this
      ensures State() == Fetch(old(State()), listFails)
    {
      var files := fileManager.ContentsOfDirectory(Documents, listFails);
      if files.Some? {
        recordings := Filter(files.value, IsAudio);
      }
      // a failed listing is only logged
    }

    /** Traps (array subscript) unless `index` is in range. */
    method RenameRecording(index: int, newName: string, moveFails: bool)
      requires Valid() && 0 <= index < |recordings|
      modifies this, fileManager
      ensures Valid()
      ensures State() == Rename(old(State()), index, newName, moveFails)
    {
      var oldUrl := recordings[index];
      var newUrl := RenameTarget(oldUrl, newName);
      var moved := fileManager.MoveItem(oldUrl, newUrl, moveFails);
      if moved {
        recordings := recordings[index := newUrl];
      }
    }

    /** Traps (array subscript) unless `index` is in range. */
    method DeleteRecording(index: int, removeFails: bool)
      requires Valid() && 0 <= index < |recordings|
      modifies this, fileManager
      ensures Valid()
      ensures State() == Delete(old(State()), index, removeFails)
    {
      var url := recordings[index];
      var removed := fileManager.RemoveItem(url, removeFails);
      if removed {
        recordings := RemoveAt(recordings, index);
      }
    }
  }
}
