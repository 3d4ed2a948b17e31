/** RecordingsListView: the rows' date labels, the rename sheet's state, and deleting by swipe,
    which removes a set of row offsets one `deleteRecording(at:)` at a time. */
module RecordingsScreen {
  import opened Wrappers
  import opened Seqs
  import opened Paths
  import opened RecorderModel
  import opened RecordingList

  // ---------------------------------------------------------------- date label

  /** `s.replacingOccurrences(of: pat, with: "")`: one left-to-right pass removing
      non-overlapping occurrences of `pat`. */
  function RemoveAll(s: string, pat: string): (r: string)
    requires pat != []
    ensures |r| <= |s|
    ensures (forall i :: 0 <= i < |s| ==> s[i] != pat[0]) ==> r == s
    decreases |s|
  {
    if |s| < |pat| then s
    else if s[..|pat|] == pat then RemoveAll(s[|pat|..], pat)
    else [s[0]] + RemoveAll(s[1..], pat)
  }

  /** The part of a file name that `formatDate(from:)` hands to the date formatter: the name
      with every "recording_" and then every ".m4a" removed. */
  function TimestampString(name: string): (r: string)
    ensures |r| <= |name|
    ensures (forall i :: 0 <= i < |name| ==> name[i] != 'r' && name[i] != '.') ==> r == name
  {
    RemoveAll(RemoveAll(name, "recording_"), ".m4a")
  }

  /** The "yyyyMMddHHmmss" pattern consists of digits only. */
  predicate AllDigits(t: string) {
    forall i :: 0 <= i < |t| ==> '0' <= t[i] <= '9'
  }

  /** `formatDate(from:)`. `parse` is the formatter set to "yyyyMMddHHmmss" and `display` the
      same formatter set to medium date and short time; when parsing fails the row reads
      "Unknown date". */
  function FormatDate<D>(u: Url, parse: string -> Option<D>, display: D -> string): (r: string)
    ensures parse(TimestampString(u.name)).None? ==> r == "Unknown date"
    ensures parse(TimestampString(u.name)).Some? ==> r == display(parse(TimestampString(u.name)).value)
  {
    match parse(TimestampString(u.name))
    case Some(date) => display(date)
    case None => "Unknown date"
  }

  /** Removing a pattern that ends the string, when its first character appears nowhere
      before it, leaves exactly what came before. */
  lemma {:induction false} RemoveAllTrailing(x: string, pat: string)
    requires pat != []
    requires forall i :: 0 <= i < |x| ==> x[i] != pat[0]
    ensures RemoveAll(x + pat, pat) == x
  {
    if x == [] {
      assert x + pat == pat;
      assert pat[|pat|..] == [];
    } else {
      assert (x + pat)[..|pat|] != pat by {
        assert (x + pat)[0] == x[0] != pat[0];
      }
      assert (x + pat)[1..] == x[1..] + pat;
      RemoveAllTrailing(x[1..], pat);
      assert [x[0]] + x[1..] == x;
    }
  }

  /** The list's rows, top to bottom: row `i` shows the name of recording `i` and its date
      label. */
  function Rows<D>(recordings: seq<Url>, parse: string -> Option<D>, display: D -> string)
    : (r: seq<(string, string)>)
    ensures |r| == |recordings|
    ensures forall i :: 0 <= i < |r| ==>
      r[i] == (recordings[i].name, FormatDate(recordings[i], parse, display))
    decreases |recordings|
  {
    if recordings == [] then []
    else
      var row := (recordings[0].name, FormatDate(recordings[0], parse, display));
      [row] + Rows(recordings[1..], parse, display)
  }

  /** `pat` occurs in `s` starting at index `i`. */
  predicate OccursAt(s: string, pat: string, i: nat) {
    i + |pat| <= |s| && s[i..i + |pat|] == pat
  }

  /** Nothing is removed from a string in which the pattern does not occur. */
  lemma {:induction false} RemoveAllAbsent(s: string, pat: string)
    requires pat != []
    requires forall i: nat :: !OccursAt(s, pat, i)
    ensures RemoveAll(s, pat) == s
    decreases |s|
  {
    if |s| >= |pat| {
      assert !OccursAt(s, pat, 0);
      assert s[..|pat|] == s[0..0 + |pat|];
      var t := s[1..];
      forall i: nat ensures !OccursAt(t, pat, i) {
        assert !OccursAt(s, pat, i + 1);
        if i + |pat| <= |t| {
          assert t[i..i + |pat|] == s[i + 1..i + 1 + |pat|];
        }
      }
      RemoveAllAbsent(t, pat);
      assert [s[0]] + t == s;
    }
  }

  /** A pattern whose first character is missing from every place it could start does not
      occur. */
  lemma NotOccurring(s: string, pat: string)
    requires pat != []
    requires forall i :: 0 <= i <= |s| - |pat| ==> s[i] != pat[0]
    ensures forall i: nat :: !OccursAt(s, pat, i)
  {
    forall i: nat | i + |pat| <= |s| ensures !OccursAt(s, pat, i) {
      assert s[i..i + |pat|][0] == s[i];
    }
  }

  /** A name of the form "recording_<stamp>.m4a" yields exactly the stamp, whenever neither
      "recording_" nor ".m4a" occurs inside the stamp: neither pattern can straddle the stamp's
      ends, because "recording_" holds no '.' and ".m4a" has '.' only at its start. */
  lemma TimestampOfConventionalName(stamp: string)
    requires forall i: nat :: !OccursAt(stamp, "recording_", i)
    requires forall i: nat :: !OccursAt(stamp, ".m4a", i)
    ensures TimestampString("recording_" + stamp + ".m4a") == stamp
  {
    var pre, ext := "recording_", ".m4a";
    var rest := stamp + ext;
    var name := pre + rest;
    assert "recording_" + stamp + ".m4a" == name;
    assert name[..|pre|] == pre && name[|pre|..] == rest;
    assert rest[|stamp|] == '.';
    forall i: nat ensures !OccursAt(rest, pre, i) {
      if i + |pre| <= |rest| {
        if i + |pre| <= |stamp| {
          assert !OccursAt(stamp, pre, i);
          assert rest[i..i + |pre|] == stamp[i..i + |pre|];
        } else {
          assert rest[i..i + |pre|][|stamp| - i] == '.';
          assert '.' !in pre;
        }
      }
    }
    RemoveAllAbsent(rest, pre);
    forall i: nat | i < |stamp| ensures !OccursAt(rest, ext, i) {
      if i + |ext| <= |stamp| {
        assert !OccursAt(stamp, ext, i);
        assert rest[i..i + |ext|] == stamp[i..i + |ext|];
      } else if i + |ext| <= |rest| {
        assert rest[i..i + |ext|][|stamp| - i] == '.';
        assert '.' !in ext[1..];
      }
    }
    RemoveAllOnlyTrailing(stamp, ext);
  }

  /** In particular an all-digit stamp, which is what the date formatter's pattern expects,
      comes back whole. */
  lemma TimestampOfDigitStamp(stamp: string)
    requires AllDigits(stamp)
    ensures TimestampString("recording_" + stamp + ".m4a") == stamp
  {
    NotOccurring(stamp, "recording_");
    NotOccurring(stamp, ".m4a");
    TimestampOfConventionalName(stamp);
  }

  /** Removing a pattern that ends the string and starts nowhere earlier leaves exactly what
      came before it. */
  lemma {:induction false} RemoveAllOnlyTrailing(x: string, pat: string)
    requires pat != []
    requires forall i: nat :: i < |x| ==> !OccursAt(x + pat, pat, i)
    ensures RemoveAll(x + pat, pat) == x
    decreases |x|
  {
    var s := x + pat;
    if x == [] {
      assert s == pat && s[..|pat|] == pat && s[|pat|..] == [];
    } else {
      assert !OccursAt(s, pat, 0);
      assert s[..|pat|] == s[0..0 + |pat|];
      var t := x[1..];
      assert s[1..] == t + pat;
      forall i: nat | i < |t| ensures !OccursAt(t + pat, pat, i) {
        assert !OccursAt(s, pat, i + 1);
        assert (t + pat)[i..i + |pat|] == s[i + 1..i + 1 + |pat|];
      }
      RemoveAllOnlyTrailing(t, pat);
      assert [x[0]] + t == x;
    }
  }

  /** A name "<base>.m4a" in which "recording_" does not occur and whose base has no '.'
      yields the base. */
  lemma StampOfPlainName(base: string)
    requires forall i: nat :: !OccursAt(base + ".m4a", "recording_", i)
    requires forall i :: 0 <= i < |base| ==> base[i] != '.'
    ensures TimestampString(base + ".m4a") == base
  {
    RemoveAllAbsent(base + ".m4a", "recording_");
    RemoveAllTrailing(base, ".m4a");
  }

  /** "recording_" occurs in neither of the recorder's file names. */
  lemma RecorderNamesLackPrefix()
    ensures forall i: nat :: !OccursAt("recording" + ".m4a", "recording_", i)
    ensures forall i: nat :: !OccursAt("savedRecording" + ".m4a", "recording_", i)
  {
    var a := "recording" + ".m4a";
    forall i: nat ensures !OccursAt(a, "recording_", i) {
      if i == 0 {
        assert a[0..10][9] == '.';
      } else if i + 10 <= |a| {
        assert a[i..i + 10][0] == a[i] != 'r';
      }
    }
    var b := "savedRecording" + ".m4a";
    assert forall i :: 0 <= i <= |b| - 10 ==> b[i] != 'r' by {
      assert b[..9] == "savedReco";
    }
    NotOccurring(b, "recording_");
  }

  /** The recorder's own files carry no timestamp: what reaches the formatter is "recording"
      or "savedRecording". */
  lemma RecorderFileStamps(u: Url)
    requires u == RecordingFile || u == SavedFile
    ensures TimestampString(u.name) == if u == RecordingFile then "recording" else "savedRecording"
  {
    RecorderNamesLackPrefix();
    if u == RecordingFile {
      assert u.name == "recording" + ".m4a";
      StampOfPlainName("recording");
    } else {
      assert u.name == "savedRecording" + ".m4a";
      StampOfPlainName("savedRecording");
    }
  }

  /** With a formatter that only accepts digits, every row for a file the recorder wrote reads
      "Unknown date". */
  lemma RecorderFilesShowUnknownDate<D>(u: Url, parse: string -> Option<D>, display: D -> string)
    requires u == RecordingFile || u == SavedFile
    requires forall t :: parse(t).Some? ==> AllDigits(t)
    ensures FormatDate(u, parse, display) == "Unknown date"
  {
    RecorderFileStamps(u);
    assert !AllDigits(TimestampString(u.name)) by {
      assert TimestampString(u.name)[0] in "rs";
    }
  }

  // ---------------------------------------------------------------- swipe to delete

  /** The offsets of an `IndexSet`, in the order `forEach` visits them. */
  predicate Ascending(offsets: seq<nat>) {
    forall i, j :: 0 <= i < j < |offsets| ==> offsets[i] < offsets[j]
  }

  function Elems(offsets: seq<nat>): set<nat> {
    set i | 0 <= i < |offsets| :: offsets[i]
  }

  predicate NoneFail(removeFails: seq<bool>) {
    forall i :: 0 <= i < |removeFails| ==> !removeFails[i]
  }

  /** `deleteRecordings(at:)` as written: `deleteRecording(at:)` for each offset in ascending
      order, against a list that has already lost the rows removed before it. `None` when an
      offset is past the end of the list at its turn, where the subscript traps. */
  function DeleteEach(c: Catalog, offsets: seq<nat>, removeFails: seq<bool>): (r: Option<Catalog>)
    requires |removeFails| == |offsets|
    ensures r.Some? ==> |c.recordings| - |offsets| <= |r.value.recordings| <= |c.recordings|
    decreases |offsets|
  {
    if offsets == [] then Some(c)
    else if offsets[0] < |c.recordings| then
      DeleteEach(Delete(c, offsets[0], removeFails[0]), offsets[1..], removeFails[1..])
    else None
  }

  /** With a single offset, swiping is the same as the context menu's delete. */
  lemma DeleteEachSingle(c: Catalog, o: nat, removeFails: bool)
    ensures DeleteEach(c, [o], [removeFails])
      == if o < |c.recordings| then Some(Delete(c, o, removeFails)) else None
  {
    assert [o][1..] == [];
  }

  /** Deleting from the last offset to the first: each removal leaves the rows below it where
      they were, so every offset still names the row the user swiped. */
  function DeleteFromLast(c: Catalog, offsets: seq<nat>, removeFails: seq<bool>): (r: Catalog)
    requires |removeFails| == |offsets| && Ascending(offsets)
    requires forall i :: 0 <= i < |offsets| ==> offsets[i] < |c.recordings|
    ensures |c.recordings| - |offsets| <= |r.recordings| <= |c.recordings|
    decreases |offsets|
  {
    if offsets == [] then c
    else
      var n := |offsets| - 1;
      DeleteFromLast(Delete(c, offsets[n], removeFails[n]), offsets[..n], removeFails[..n])
  }

  /** One removal, at an offset below every row already removed from `s`. */
  lemma DeleteBelowRemoved(s: seq<Url>, del: set<nat>, c: Catalog, o: nat)
    requires Synced(c) && c.recordings == Keep(s, del)
    requires o < |s| && forall d :: d in del ==> o < d
    ensures o < |c.recordings|
    ensures Synced(Delete(c, o, false))
    ensures Delete(c, o, false).recordings == Keep(s, del + {o})
  {
    RemoveAtKeep(s, del, o);
    SyncedShape(c);
    DeleteKeepsSync(c, o, false);
  }

  /** Dropping the last (largest) offset: what remains is ascending, lies below it and below
      every row already removed, and together with it makes up the original offsets. */
  lemma DropLastOffset(del: set<nat>, offsets: seq<nat>, removeFails: seq<bool>, bound: nat)
    requires offsets != [] && Ascending(offsets) && |removeFails| == |offsets|
    requires NoneFail(removeFails)
    requires forall i :: 0 <= i < |offsets| ==> offsets[i] < bound
    requires forall d, i :: d in del && 0 <= i < |offsets| ==> offsets[i] < d
    ensures var n := |offsets| - 1; var init := offsets[..n];
      && Ascending(init) && NoneFail(removeFails[..n])
      && !removeFails[n]
      && (forall i :: 0 <= i < |init| ==> init[i] < offsets[n] < bound)
      && (forall d, i :: d in del + {offsets[n]} && 0 <= i < |init| ==> init[i] < d)
      && del + Elems(offsets) == (del + {offsets[n]}) + Elems(init)
  {
    var n := |offsets| - 1;
    assert offsets == offsets[..n] + [offsets[n]];
  }

  /** Deleting from the last offset is one removal at the last offset, then the rest. */
  lemma DeleteFromLastStep(c: Catalog, offsets: seq<nat>, removeFails: seq<bool>)
    requires offsets != [] && |removeFails| == |offsets| && Ascending(offsets)
    requires forall i :: 0 <= i < |offsets| ==> offsets[i] < |c.recordings|
    ensures var n := |offsets| - 1; var c' := Delete(c, offsets[n], removeFails[n]);
      && Ascending(offsets[..n])
      && (forall i :: 0 <= i < n ==> offsets[..n][i] < |c'.recordings|)
      && DeleteFromLast(c, offsets, removeFails) == DeleteFromLast(c', offsets[..n], removeFails[..n])
  {
  }

  /** The step of `DeleteFromLastRemovesOffsets`: from a list that has already lost the rows
      `del` of `s`, all above the offsets still to go. */
  lemma {:induction false} DeleteFromLastFrom(s: seq<Url>, del: set<nat>, c: Catalog,
                                                offsets: seq<nat>, removeFails: seq<bool>)
    requires Synced(c) && c.recordings == Keep(s, del)
    requires Ascending(offsets) && |removeFails| == |offsets| && NoneFail(removeFails)
    requires forall i :: 0 <= i < |offsets| ==> offsets[i] < |c.recordings|
    requires forall i :: 0 <= i < |offsets| ==> offsets[i] < |s|
    requires forall d, i :: d in del && 0 <= i < |offsets| ==> offsets[i] < d
    ensures Synced(DeleteFromLast(c, offsets, removeFails))
    ensures DeleteFromLast(c, offsets, removeFails).recordings == Keep(s, del + Elems(offsets))
    decreases |offsets|
  {
    if offsets == [] {
      assert Elems(offsets) == {};
      assert del + Elems(offsets) == del;
    } else {
      var n := |offsets| - 1;
      var o := offsets[n];
      DropLastOffset(del, offsets, removeFails, |s|);
      DeleteBelowRemoved(s, del, c, o);
      var c' := Delete(c, o, false);
      var init, initFails := offsets[..n], removeFails[..n];
      DeleteFromLastStep(c, offsets, removeFails);
      DeleteFromLastFrom(s, del + {o}, c', init, initFails);
    }
  }

  /** Deleting from the last offset removes exactly the swiped rows, keeps the others in
      order, and keeps the list in line with the directory. */
  lemma DeleteFromLastRemovesOffsets(c: Catalog, offsets: seq<nat>, removeFails: seq<bool>)
    requires Synced(c)
    requires Ascending(offsets) && |removeFails| == |offsets| && NoneFail(removeFails)
    requires forall i :: 0 <= i < |offsets| ==> offsets[i] < |c.recordings|
    ensures Synced(DeleteFromLast(c, offsets, removeFails))
    ensures DeleteFromLast(c, offsets, removeFails).recordings == Keep(c.recordings, Elems(offsets))
  {
    KeepNothing(c.recordings);
    assert {} + Elems(offsets) == Elems(offsets);
    DeleteFromLastFrom(c.recordings, {}, c, offsets, removeFails);
  }

  /** A successful removal from a list that is the whole directory removes the same entry
      from both. */
  lemma DeleteFromDirectoryList(s: seq<Url>, i: nat)
    requires Distinct(s) && i < |s|
    ensures Delete(Catalog(s, s), i, false) == Catalog(RemoveAt(s, i), RemoveAt(s, i))
    ensures Distinct(RemoveAt(s, i))
  {
    WithoutAt(s, i);
    WithoutDistinct(s, s[i]);
  }

  /** What swiping away rows 0 and 2 of four distinct files leaves, as written. */
  lemma AscendingDeleteOfFour(s: seq<Url>)
    requires Distinct(s) && |s| == 4
    ensures DeleteEach(Catalog(s, s), [0, 2], [false, false])
      == Some(Catalog([s[1], s[2]], [s[1], s[2]]))
  {
    DeleteFromDirectoryList(s, 0);
    var t := RemoveAt(s, 0);
    DeleteFromDirectoryList(t, 2);
    var u := RemoveAt(t, 2);
    assert u == [s[1], s[2]];
    assert DeleteEach(Catalog(s, s), [0, 2], [false, false]) == DeleteEach(Catalog(t, t), [2], [false]);
    assert DeleteEach(Catalog(t, t), [2], [false]) == DeleteEach(Catalog(u, u), [], []);
  }

  /** Swiping away rows 0 and 2 of four removes rows 0 and 3: after row 0 goes, offset 2 names
      what was row 3. Row 2 should have gone and row 3 should have stayed. */
  lemma AscendingDeleteRemovesWrongRow(s: seq<Url>)
    requires Distinct(s) && |s| == 4
    ensures DeleteEach(Catalog(s, s), [0, 2], [false, false])
      == Some(Catalog([s[1], s[2]], [s[1], s[2]]))
    ensures s[2] !in Keep(s, {0, 2}) && s[3] in Keep(s, {0, 2})
  {
    AscendingDeleteOfFour(s);
    KeepMembers(s, {0, 2}, 2);
    KeepMembers(s, {0, 2}, 3);
  }

  /** Swiping away both rows of a two-row list traps: offset 1 is past the end once row 0 is
      gone, although both offsets name rows of the list the user saw. */
  lemma AscendingDeleteTraps(s: seq<Url>)
    requires Distinct(s) && |s| == 2
    ensures DeleteEach(Catalog(s, s), [0, 1], [false, false]).None?
  {
    DeleteFromDirectoryList(s, 0);
    var t := RemoveAt(s, 0);
    assert DeleteEach(Catalog(s, s), [0, 1], [false, false]) == DeleteEach(Catalog(t, t), [1], [false]);
  }

  // ---------------------------------------------------------------- the view

  /** `RecordingsListView`'s own state: the row picked for renaming, the name typed into the
      rename sheet, and whether the sheet is up. */
  class RecordingsListView {
    const viewModel: RecordingsListViewModel
    var renameIndex: Option<int>
    var newName: string
    var isRenameViewPresented: bool

    ghost predicate Valid()
      reads this, viewModel, viewModel.fileManager
    {
      viewModel.Valid()
    }

    constructor (vm: RecordingsListViewModel)
      requires vm.Valid()
      ensures Valid() && viewModel == vm
      ensures renameIndex == None && newName == "" && !isRenameViewPresented
    {
      viewModel := vm;
      renameIndex := None;
      newName := "";
      isRenameViewPresented := false;
    }

    /** `.onAppear`, and the recorder sheet's `onDismiss`: the list is fetched again. */
    method Refresh(listFails: bool)
      modifies viewModel
      ensures viewModel.State() == Fetch(old(viewModel.State()), listFails)
    {
      viewModel.FetchRecordings(listFails);
    }

    /** The "Rename" context-menu item, or the player's rename action, on row `index`. */
    method ShowRename(index: int)
      modifies this
      ensures renameIndex == Some(index) && isRenameViewPresented
      ensures newName == old(newName)
    {
      renameIndex := Some(index);
      isRenameViewPresented := true;
    }

    /** Typing into the rename sheet's text field. */
    method EditName(text: string)
      modifies this
      ensures newName == text
      ensures renameIndex == old(renameIndex) && isRenameViewPresented == old(isRenameViewPresented)
    {
      newName := text;
    }

    /** The sheet's "Rename" button: `renameRecording(at: renameIndex!, to: newName)`, then the
        sheet closes. Traps unless a row was picked and is still in range. */
    method ConfirmRename(moveFails: bool)
      requires Valid() && renameIndex.Some?
      requires 0 <= renameIndex.value < |viewModel.recordings|
      modifies this, viewModel, viewModel.fileManager
      ensures Valid() && !isRenameViewPresented
      ensures renameIndex == old(renameIndex) && newName == old(newName)
      ensures viewModel.State() ==
        Rename(old(viewModel.State()), old(renameIndex.value), old(newName), moveFails)
    {
      viewModel.RenameRecording(renameIndex.value, newName, moveFails);
      isRenameViewPresented := false;
    }

    /** The sheet's "Cancel" button. */
    method CancelRename()
      modifies this
      ensures !isRenameViewPresented
      ensures renameIndex == old(renameIndex) && newName == old(newName)
    {
      isRenameViewPresented := false;
    }

    /** The sheet's `.onDisappear`: the typed name is cleared for next time. */
    method RenameSheetDisappeared()
      modifies this
      ensures newName == ""
      ensures renameIndex == old(renameIndex) && isRenameViewPresented == old(isRenameViewPresented)
    {
      newName := "";
    }

    /** The "Delete" context-menu item on row `index`. */
    method DeleteFromMenu(index: int, removeFails: bool)
      requires Valid() && 0 <= index < |viewModel.recordings|
      modifies viewModel, viewModel.fileManager
      ensures Valid()
      ensures viewModel.State() == Delete(old(viewModel.State()), index, removeFails)
    {
      viewModel.DeleteRecording(index, removeFails);
    }

    /** `deleteRecordings(at:)`, as written. */
    method DeleteRecordings(offsets: seq<nat>, removeFails: seq<bool>)
      requires Valid() && Ascending(offsets) && |removeFails| == |offsets|
      requires DeleteEach(viewModel.State(), offsets, removeFails).Some?
      modifies viewModel, viewModel.fileManager
      ensures Valid()
      ensures Some(viewModel.State()) == DeleteEach(old(viewModel.State()), offsets, removeFails)
    {
      var i := 0;
      while i < |offsets|
        invariant 0 <= i <= |offsets|
        invariant Valid()
        invariant DeleteEach(viewModel.State(), offsets[i..], removeFails[i..])
          == DeleteEach(old(viewModel.State()), offsets, removeFails)
      {
        assert offsets[i..][1..] == offsets[i + 1..];
        assert removeFails[i..][1..] == removeFails[i + 1..];
        viewModel.DeleteRecording(offsets[i], removeFails[i]);
        i := i + 1;
      }
      assert offsets[i..] == [];
    }
  }
}
