/**
 * The recent-files list of the File menu: the "recentFileList" setting,
 * kept most-recent-first, and the fixed row of menu slots that shows it.
 */
module RecentFiles {
  import Paths

  /** How many recent files are kept, and how many menu slots show them. */
  const MaxRecentFiles := 5

  /** QStringList::removeAll: every copy of `x` is removed, the rest keeps its order. */
  function RemoveAll(files: seq<string>, x: string): (r: seq<string>)
    ensures x !in r
    ensures forall y :: y in r <==> y in files && y != x
    ensures |r| <= |files|
    ensures x !in files ==> r == files
  {
    if files == [] then []
    else if files[0] == x then RemoveAll(files[1..], x)
    else [files[0]] + RemoveAll(files[1..], x)
  }

  /** The entries of `files` that `keep` accepts, in their original order. */
  function Filter(files: seq<string>, keep: string -> bool): seq<string>
  {
    if files == [] then []
    else (if keep(files[0]) then [files[0]] else []) + Filter(files[1..], keep)
  }

  /** At most the first `n` entries of `files` (the effect of removing the last entry while there are more than `n`). */
  function Take(files: seq<string>, n: nat): seq<string>
  {
    if |files| <= n then files else files[..n]
  }

  /**
   * The list addToRecentFiles writes back: empty entries and earlier copies
   * of `file` removed, `file` put in front, the list cut to MaxRecentFiles.
   */
  function AddedToRecent(files: seq<string>, file: string): seq<string>
  {
    Take([file] + RemoveAll(RemoveAll(files, ""), file), MaxRecentFiles)
  }

  lemma {:induction false} FilterMembership(files: seq<string>, keep: string -> bool, y: string)
    ensures y in Filter(files, keep) <==> y in files && keep(y)
    decreases |files|
  {
    if files != [] {
      FilterMembership(files[1..], keep, y);
      assert files == [files[0]] + files[1..];
    }
  }

  /** Removing "" and then `file` keeps exactly the entries that are neither. */
  lemma {:induction false} RemoveTwiceIsFilter(files: seq<string>, file: string)
    ensures RemoveAll(RemoveAll(files, ""), file) == Filter(files, e => e != "" && e != file)
    decreases |files|
  {
    if files != [] {
      RemoveTwiceIsFilter(files[1..], file);
    }
  }

  /** After adding a non-empty file: it is first, it occurs exactly once, no entry is empty, at most MaxRecentFiles remain. */
  lemma AddedToRecentFront(files: seq<string>, file: string)
    requires file != ""
    ensures var r := AddedToRecent(files, file);
      1 <= |r| <= MaxRecentFiles && r[0] == file &&
      multiset(r)[file] == 1 && "" !in r
  {
    var rest := RemoveAll(RemoveAll(files, ""), file);
    var r := AddedToRecent(files, file);
    assert r == [file] + Take(rest, MaxRecentFiles - 1);
    assert file !in Take(rest, MaxRecentFiles - 1);
    assert "" !in Take(rest, MaxRecentFiles - 1);
  }

  /**
   * After adding `file`, the entries behind it are the earlier entries that
   * are neither empty nor `file`, in their original order, cut from the end.
   */
  lemma AddedToRecentOrder(files: seq<string>, file: string)
    ensures var kept := Filter(files, e => e != "" && e != file);
      AddedToRecent(files, file) == [file] + Take(kept, MaxRecentFiles - 1)
  {
    RemoveTwiceIsFilter(files, file);
  }

  /** Nothing is lost while the kept entries fit: each earlier non-empty entry other than `file` stays. */
  lemma AddedToRecentKeepsAllWhenRoom(files: seq<string>, file: string, y: string)
    requires |Filter(files, e => e != "" && e != file)| < MaxRecentFiles
    requires y in files && y != "" && y != file
    ensures y in AddedToRecent(files, file)
  {
    var keep := e => e != "" && e != file;
    AddedToRecentOrder(files, file);
    FilterMembership(files, keep, y);
  }

  /** Adding the same file twice in a row leaves the list as one addition does. */
  lemma AddedToRecentIdempotent(files: seq<string>, file: string)
    ensures AddedToRecent(AddedToRecent(files, file), file) == AddedToRecent(files, file)
  {
    var rest := Take(RemoveAll(RemoveAll(files, ""), file), MaxRecentFiles - 1);
    var r := AddedToRecent(files, file);
    assert r == [file] + rest;
    assert "" !in rest && file !in rest;
    if file == "" {
      assert RemoveAll(r, "") == rest;
    } else {
      assert RemoveAll(r, "") == [file] + rest;
      assert RemoveAll([file] + rest, file) == rest;
    }
  }

  /** The label of menu slot `i` (counted from 0): "&" + (i+1) + " " + the file name. */
  function SlotText(i: nat, file: string): string
    requires i < MaxRecentFiles
  {
    "&" + [('0' as int + i + 1) as char] + " " + Paths.FileName(file)
  }

  /** One recent-file action of the File menu. */
  datatype MenuSlot = MenuSlot(text: string, data: string, visible: bool)

  /** The first min(|files|, MaxRecentFiles) slots show files in order; the others are hidden. */
  predicate ShowsRecentFiles(files: seq<string>, slots: seq<MenuSlot>)
  {
    |slots| == MaxRecentFiles &&
    forall i :: 0 <= i < MaxRecentFiles ==>
      (slots[i].visible <==> i < |files|) &&
      (i < |files| ==> slots[i].text == SlotText(i, files[i]) && slots[i].data == files[i])
  }

  /** openRecentFile: a ".vws" file (in any case) goes to the workspace loader, anything else to the network loader. */
  function RecentFileTarget(file: string): (t: Paths.LoadTarget)
    ensures t.path == file
    ensures t.WorkspaceFile? <==> Paths.IsWorkspaceFile(file)
  {
    if Paths.IsWorkspaceFile(file) then Paths.WorkspaceFile(file) else Paths.NetworkFile(file)
  }

  /** The recent-file list together with the menu slots that show it. */
  class RecentFileMenu {
    /** The "recentFileList" setting, most recent first. */
    var files: seq<string>
    /** The File menu's recent-file actions. */
    const slots: array<MenuSlot>

    ghost predicate Valid()
      reads this, slots
    {
      slots.Length == MaxRecentFiles && ShowsRecentFiles(files, slots[..])
    }

    /** The menu is built with MaxRecentFiles fresh actions and then filled from the stored list. */
    constructor (stored: seq<string>)
      ensures Valid() && fresh(slots) && files == stored
    {
      files := stored;
      slots := new MenuSlot[MaxRecentFiles](_ => MenuSlot("", "", true));
      new;
      UpdateRecentFiles();
    }

    /** updateRecentFiles: label and show a slot per listed file, hide the rest (their old label stays). */
    method UpdateRecentFiles()
      requires slots.Length == MaxRecentFiles
      modifies slots
      ensures Valid()
      ensures forall i :: 0 <= i < MaxRecentFiles && i < |files| ==>
        slots[i] == MenuSlot(SlotText(i, files[i]), files[i], true)
      ensures forall j :: 0 <= j < MaxRecentFiles && |files| <= j ==>
        slots[j] == old(slots[j]).(visible := false)
    {
      var shown := if |files| < MaxRecentFiles then |files| else MaxRecentFiles;
      LabelSlots(shown);
      HideSlotsFrom(shown);
      assert forall i :: 0 <= i < MaxRecentFiles ==> slots[..][i] == slots[i];
    }

    /** The first `shown` slots take the label and file of the list entry at their position and are shown. */
    method LabelSlots(shown: nat)
      requires slots.Length == MaxRecentFiles && shown <= MaxRecentFiles && shown <= |files|
      modifies slots
      ensures forall k :: 0 <= k < shown ==> slots[k] == MenuSlot(SlotText(k, files[k]), files[k], true)
      ensures forall k :: shown <= k < MaxRecentFiles ==> slots[k] == old(slots[k])
    {
      var list := files;
      for i := 0 to shown
        invariant forall k :: 0 <= k < i ==> slots[k] == MenuSlot(SlotText(k, list[k]), list[k], true)
        invariant forall k :: i <= k < MaxRecentFiles ==> slots[k] == old(slots[k])
      {
        ghost var before := slots[..];
        slots[i] := MenuSlot(SlotText(i, list[i]), list[i], true);
        assert forall k :: 0 <= k < MaxRecentFiles && k != i ==> slots[k] == before[k];
      }
    }

    /** The slots from `shown` on are hidden; their label and file stay. */
    method HideSlotsFrom(shown: nat)
      requires slots.Length == MaxRecentFiles && shown <= MaxRecentFiles
      modifies slots
      ensures forall k :: 0 <= k < shown ==> slots[k] == old(slots[k])
      ensures forall k :: shown <= k < MaxRecentFiles ==> slots[k] == old(slots[k]).(visible := false)
    {
      for j := shown to MaxRecentFiles
        invariant forall k :: 0 <= k < shown ==> slots[k] == old(slots[k])
        invariant forall k :: shown <= k < j ==> slots[k] == old(slots[k]).(visible := false)
        invariant forall k :: j <= k < MaxRecentFiles ==> slots[k] == old(slots[k])
      {
        slots[j] := slots[j].(visible := false);
      }
    }

    /** addToRecentFiles: remove empties and copies of `file`, prepend it, drop from the end down to MaxRecentFiles, refresh the menu. */
    method AddToRecentFiles(file: string)
      requires slots.Length == MaxRecentFiles
      modifies this, slots
      ensures Valid()
      ensures files == AddedToRecent(old(files), file)
      ensures forall j :: 0 <= j < MaxRecentFiles && |files| <= j ==>
        slots[j] == old(slots[j]).(visible := false)
    {
      var list := RemoveAll(files, "");
      list := RemoveAll(list, file);
      list := [file] + list;
      ghost var full := list;
      while |list| > MaxRecentFiles
        invariant |list| <= |full| && list == full[..|list|]
        invariant |list| < |full| ==> MaxRecentFiles <= |list|
        decreases |list|
      {
        list := list[..|list| - 1];
      }
      files := list;
      UpdateRecentFiles();
    }
  }
}
