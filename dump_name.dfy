/** The choice of a free file name "dump0" ... "dump99" in `main` (main.c). */
module DumpFile {
  import opened CTypes
  import opened CStrings
  import opened DecimalText
  import opened Directory

  const DUMP: seq<uint8> := [100, 117, 109, 112]  // "dump"
  const DUMP_SLOTS: nat := 100

  /** `strcpy(filename, "dump"); strcat(filename, itoa(i, filenum, 10))` */
  function DumpName(i: nat): (name: seq<uint8>)
    ensures NulFree(name)
  {
    DUMP + Decimal(i)
  }

  lemma DumpNameInjective(i: nat, j: nat)
    requires DumpName(i) == DumpName(j)
    ensures i == j
  {
    assert DumpName(i)[|DUMP|..] == Decimal(i);
    assert DumpName(j)[|DUMP|..] == Decimal(j);
    DecimalInjective(i, j);
  }

  function FreeDumpIndexFrom(existing: set<seq<uint8>>, i: nat): (r: Option<nat>)
    requires i <= DUMP_SLOTS
    ensures r.Some? ==> i <= r.value < DUMP_SLOTS && DumpName(r.value) !in existing
    ensures r.Some? ==> forall j :: i <= j < r.value ==> DumpName(j) in existing
    ensures r.None? ==> forall j :: i <= j < DUMP_SLOTS ==> DumpName(j) in existing
    decreases DUMP_SLOTS - i
  {
    if i == DUMP_SLOTS then None
    else if DumpName(i) !in existing then Some(i)
    else FreeDumpIndexFrom(existing, i + 1)
  }

  /** The number the dump file gets: the least `i` below 100 whose name is
      not taken, or none when all hundred are. */
  function FreeDumpIndex(existing: set<seq<uint8>>): (r: Option<nat>)
    ensures r.Some? ==> r.value < DUMP_SLOTS && DumpName(r.value) !in existing
    ensures r.Some? ==> forall j :: 0 <= j < r.value ==> DumpName(j) in existing
    ensures r.None? <==> forall j :: 0 <= j < DUMP_SLOTS ==> DumpName(j) in existing
  {
    FreeDumpIndexFrom(existing, 0)
  }

  function DumpNames(k: nat): set<seq<uint8>>
  {
    set i | 0 <= i < k :: DumpName(i)
  }

  lemma {:induction false} DumpNamesCount(k: nat)
    ensures |DumpNames(k)| == k
  {
    if k > 0 {
      DumpNamesCount(k - 1);
      assert DumpNames(k) == DumpNames(k - 1) + {DumpName(k - 1)};
      if DumpName(k - 1) in DumpNames(k - 1) {
        var i :| 0 <= i < k - 1 && DumpName(i) == DumpName(k - 1);
        DumpNameInjective(i, k - 1);
      }
    }
  }

  /** Fewer than a hundred names leave a dump name free. */
  lemma FreeDumpIndexExists(existing: set<seq<uint8>>)
    requires |existing| < DUMP_SLOTS
    ensures FreeDumpIndex(existing).Some?
  {
    if FreeDumpIndex(existing).None? {
      var taken := DumpNames(DUMP_SLOTS);
      DumpNamesCount(DUMP_SLOTS);
      SubsetSize(taken, existing);
      assert false;
    }
  }

  lemma SubsetSize(small: set<seq<uint8>>, large: set<seq<uint8>>)
    requires small <= large
    ensures |small| <= |large|
  {
    assert large == small + (large - small);
  }

  lemma {:induction false} NameSetSize(entries: seq<DirEntry>)
    ensures |NameSet(entries)| <= |entries|
  {
    if entries != [] {
      var last := entries[|entries| - 1];
      var init := entries[..|entries| - 1];
      NameSetSize(init);
      assert NameSet(entries) == NameSet(init) + {last.longName};
    }
  }

  /** The loop of `main` that looks for a free dump name: `find_file_in_dir`
      for "dump0", "dump1", ... until a name is missing, at most 100 times. */
  method ChooseDumpName(dd: DirCursor) returns (available: bool, filename: seq<uint8>)
    requires dd.Valid() && dd.position == 0
    modifies dd
    ensures dd.Valid() && dd.position == 0
    ensures var r := FreeDumpIndex(NameSet(dd.entries));
      available == r.Some? && (available ==> filename == DumpName(r.value))
  {
    available, filename := false, [];
    var i := 0;
    while i < DUMP_SLOTS
      invariant i <= DUMP_SLOTS && dd.Valid() && dd.position == 0
      invariant forall j :: 0 <= j < i ==> DumpName(j) in NameSet(dd.entries)
    {
      filename := DumpName(i);
      var found, _ := FindFileInDir(dd, filename);
      FirstMatchFromStart(dd.entries, filename);
      if !found {
        available := true;
        break;
      }
      i := i + 1;
    }
  }

  /** So a directory of fewer than 100 entries always yields a dump name. */
  lemma FewEntriesLeaveDumpName(entries: seq<DirEntry>)
    requires |entries| < DUMP_SLOTS
    ensures FreeDumpIndex(NameSet(entries)).Some?
  {
    NameSetSize(entries);
    FreeDumpIndexExists(NameSet(entries));
  }
}
