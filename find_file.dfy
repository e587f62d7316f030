/** `find_file_in_dir` (main.c) over an abstract directory handle. */
module Directory {
  import opened CTypes
  import opened CStrings

  /** The fields of `struct fat_dir_entry_struct` the shell looks at. */
  datatype DirEntry = DirEntry(longName: seq<uint8>, attributes: uint8, fileSize: uint32)

  /** The names a directory holds. */
  function NameSet(entries: seq<DirEntry>): set<seq<uint8>>
  {
    set e | e in entries :: e.longName
  }

  /** An open directory (`struct fat_dir_struct`): the entries it lists, in
      order, and a cursor telling how many of them have been read. */
  class DirCursor {
    const entries: seq<DirEntry>
    var position: nat

    ghost predicate Valid()
      reads this
    {
      position <= |entries| && forall e :: e in entries ==> NulFree(e.longName)
    }

    /** `fat_open_dir`: a fresh handle reads from the first entry. */
    constructor (entries: seq<DirEntry>)
      requires forall e :: e in entries ==> NulFree(e.longName)
      ensures Valid() && this.entries == entries && position == 0
    {
      this.entries := entries;
      position := 0;
    }

    /** `fat_read_dir`: the next entry; at the end of the listing it reports
        failure and rewinds, so that the next listing starts over. */
    method ReadDir() returns (ok: bool, entry: DirEntry)
      requires Valid()
      modifies this
      ensures Valid()
      ensures ok == (old(position) < |entries|)
      ensures ok ==> entry == entries[old(position)] && position == old(position) + 1
      ensures !ok ==> position == 0
    {
      if position < |entries| {
        ok, entry := true, entries[position];
        position := position + 1;
      } else {
        ok, entry := false, DirEntry([], 0, 0);
        position := 0;
      }
    }

    /** `fat_reset_dir` */
    method Reset()
      requires Valid()
      modifies this
      ensures Valid() && position == 0
    {
      position := 0;
    }
  }

  /** The first entry at or after `from` whose long name is exactly `name`. */
  function FirstMatch(entries: seq<DirEntry>, from: nat, name: seq<uint8>): (r: Option<nat>)
    requires from <= |entries|
    ensures r.Some? ==> from <= r.value < |entries| && entries[r.value].longName == name
    ensures r.Some? ==> forall k :: from <= k < r.value ==> entries[k].longName != name
    ensures r.None? <==> forall k :: from <= k < |entries| ==> entries[k].longName != name
    decreases |entries| - from
  {
    if from == |entries| then None
    else if entries[from].longName == name then Some(from)
    else FirstMatch(entries, from + 1, name)
  }

  /** Searching the whole directory finds a name exactly when the directory holds it. */
  lemma FirstMatchFromStart(entries: seq<DirEntry>, name: seq<uint8>)
    ensures FirstMatch(entries, 0, name).Some? <==> name in NameSet(entries)
  {
    if name in NameSet(entries) {
      var e :| e in entries && e.longName == name;
      var k :| 0 <= k < |entries| && entries[k] == e;
      assert entries[k].longName == name;
    }
  }

  /** `find_file_in_dir(fs, dd, name, &dir_entry)`: reads on from the cursor
      and stops at the first entry whose long name equals `name` (`strcmp`,
      so case matters), rewinding the directory before reporting success. */
  method FindFileInDir(dd: DirCursor, name: seq<uint8>) returns (found: bool, entry: DirEntry)
    requires dd.Valid() && NulFree(name)
    modifies dd
    ensures dd.Valid() && dd.position == 0
    ensures var m := FirstMatch(dd.entries, old(dd.position), name);
      found == m.Some? && (found ==> entry == dd.entries[m.value])
  {
    ghost var start := dd.position;
    var ok;
    ok, entry := dd.ReadDir();
    while ok
      invariant dd.Valid()
      invariant ok ==> start < dd.position && entry == dd.entries[dd.position - 1]
      invariant !ok ==> forall k :: start <= k < |dd.entries| ==> dd.entries[k].longName != name
      invariant ok ==> forall k :: start <= k < dd.position - 1 ==> dd.entries[k].longName != name
      invariant !ok ==> dd.position == 0
      decreases ok, |dd.entries| - dd.position
    {
      if StrCmp(entry.longName, name) == 0 {
        dd.Reset();
        return true, entry;
      }
      ok, entry := dd.ReadDir();
    }
    found := false;
  }
}
