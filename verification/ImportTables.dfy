/** The import tables that app/hook-win32/src/image.cpp writes into a .detour section: what they hold,
    how big they are, and what a loader reads from them (x64). */
module ImportTables {
  import opened Basics

  /** A C string without its NUL. */
  type Text = seq<byte>

  datatype ImportName = ImportName(name: Option<Text>, orig: Option<Text>, hint: nat, ordinal: nat)

  datatype ImportFile = ImportFile(
    name: Text, orig: Option<Text>, byway: bool, names: seq<ImportName>, firstThunk: nat, forwarderChain: nat)

  datatype Descriptor = Descriptor(originalFirstThunk: nat, forwarderChain: nat, name: nat, firstThunk: nat)

  /** Virtual addresses of the lookup table, the bound table and the name table. */
  datatype Addresses = Addresses(lookup: nat, bound: nat, chars: nat)

  const ORDINAL_FLAG := 0x8000_0000_0000_0000
  const THUNK := 8

  // ---------------------------------------------------------------- one import

  /** A string with its NUL, padded to an even length. */
  function Stored(s: Text): (r: seq<byte>)
    ensures |s| < |r| <= |s| + 2 && s <= r && forall j :: |s| <= j < |r| ==> r[j] == 0
  {
    if |s| % 2 == 1 then s + [0] else s + [0, 0]
  }

  function NameChars1(n: ImportName): seq<byte> {
    if n.name.Some? then LittleEndian(n.hint, 2) + Stored(n.name.value) else []
  }

  /** The name table entries of a list of imports. */
  function NameChars(names: seq<ImportName>): seq<byte> {
    if names == [] then [] else NameChars(names[..|names| - 1]) + NameChars1(names[|names| - 1])
  }

  function Entry(a: Addresses, at: nat, n: ImportName): nat {
    if n.name.Some? then a.chars + at else ORDINAL_FLAG + n.ordinal
  }

  /** The lookup thunks of a list of imports whose names start at offset `at` of the name table. */
  function Entries(a: Addresses, at: nat, names: seq<ImportName>): (r: seq<nat>)
    ensures |r| == |names|
  {
    if names == [] then []
    else
      var init := names[..|names| - 1];
      Entries(a, at, init) + [Entry(a, at + |NameChars(init)|, names[|names| - 1])]
  }

  // ---------------------------------------------------------------- one file

  function FileChars(f: ImportFile): seq<byte> {
    Stored(f.name) + if f.byway then [] else NameChars(f.names)
  }

  function FileLookup(a: Addresses, at: nat, f: ImportFile): seq<nat> {
    if f.byway then [ORDINAL_FLAG + 1, 0] else Entries(a, at + |Stored(f.name)|, f.names) + [0]
  }

  function FileBound(f: ImportFile): seq<nat> {
    if f.byway then [ORDINAL_FLAG + 1, 0] else []
  }

  /** `many`: the lookup table has room for more than one thunk (CImageThunks::Current). */
  function FileDescriptor(a: Addresses, many: bool, lookups: nat, bounds: nat, chars: nat, f: ImportFile): Descriptor {
    Descriptor(if f.byway || many then a.lookup + THUNK * lookups else 0, f.forwarderChain, a.chars + chars,
               if f.byway then a.bound + THUNK * bounds else f.firstThunk)
  }

  // ---------------------------------------------------------------- all files

  function Chars(files: seq<ImportFile>): seq<byte> {
    if files == [] then [] else Chars(files[..|files| - 1]) + FileChars(files[|files| - 1])
  }

  function Lookup(a: Addresses, files: seq<ImportFile>): seq<nat> {
    if files == [] then []
    else
      var init := files[..|files| - 1];
      Lookup(a, init) + FileLookup(a, |Chars(init)|, files[|files| - 1])
  }

  function Bound(files: seq<ImportFile>): seq<nat> {
    if files == [] then [] else Bound(files[..|files| - 1]) + FileBound(files[|files| - 1])
  }

  function Descriptors(a: Addresses, many: bool, files: seq<ImportFile>): (r: seq<Descriptor>)
    ensures |r| == |files|
  {
    if files == [] then []
    else
      var init := files[..|files| - 1];
      Descriptors(a, many, init)
          + [FileDescriptor(a, many, |Lookup(a, init)|, |Bound(init)|, |Chars(init)|, files[|files| - 1])]
  }

  // ---------------------------------------------------------------- the counting pass

  predicate Edited(f: ImportFile) {
    f.byway || Some(f.name) != f.orig || exists n :: 0 <= n < |f.names| && Renamed(f.names[n])
  }

  predicate Renamed(n: ImportName) { n.name != n.orig }

  predicate IsEven(n: nat) { n % 2 == 0 }

  lemma EvenSum(a: nat, b: nat)
    requires IsEven(a) && IsEven(b)
    ensures IsEven(a + b)
  {}

  /** nLen += (nLen & 1). */
  function RoundUp(n: nat): nat { n + n % 2 }

  /** Counting a string, with the total rounded up to even. */
  lemma StoredSize(n: nat, s: Text)
    requires IsEven(n)
    ensures RoundUp(n + |s| + 1) == n + |Stored(s)| && IsEven(n + |Stored(s)|) && IsEven(n + 2)
  {}

  lemma EvenStart()
    ensures IsEven(0) && IsEven(2)
  {}

  lemma {:induction false} NamesAreEven(names: seq<ImportName>)
    ensures IsEven(|NameChars(names)|)
    decreases |names|
  {
    EvenStart();
    hide IsEven, Stored, RoundUp;
    if names != [] {
      var n := names[|names| - 1];
      NamesAreEven(names[..|names| - 1]);
      if n.name.Some? {
        EvenSum(|NameChars(names[..|names| - 1])|, 2);
        StoredSize(|NameChars(names[..|names| - 1])| + 2, n.name.value);
      }
    }
  }

  lemma {:induction false} CharsAreEven(files: seq<ImportFile>)
    ensures IsEven(|Chars(files)|)
    decreases |files|
  {
    EvenStart();
    hide IsEven, Stored, NameChars, RoundUp;
    if files != [] {
      var init, f := files[..|files| - 1], files[|files| - 1];
      CharsAreEven(init);
      StoredSize(|Chars(init)|, f.name);
      NamesAreEven(f.names);
      EvenSum(|Chars(init)| + |Stored(f.name)|, |NameChars(f.names)|);
    }
  }

  lemma NamesSnoc(names: seq<ImportName>, i: nat)
    requires i < |names|
    ensures NameChars(names[..i + 1]) == NameChars(names[..i]) + NameChars1(names[i])
  {
    assert names[..i + 1][..i] == names[..i];
  }

  lemma CountStep(names: seq<ImportName>, n: nat, chars: nat, start: nat)
    requires n < |names| && IsEven(start) && chars == start + |NameChars(names[..n])|
    ensures start + |NameChars(names[..n + 1])| ==
            if names[n].name.Some? then RoundUp(chars + 2 + |names[n].name.value| + 1) else chars
  {
    hide *;
    NamesAreEven(names[..n]);
    EvenSum(start, |NameChars(names[..n])|);
    NamesSnoc(names, n);
    EvenStart();
    SizeOfName(names[n]);
    if names[n].name.Some? { EvenSum(chars, 2); StoredSize(chars + 2, names[n].name.value); }
  }

  lemma SizeOfName(n: ImportName)
    ensures |NameChars1(n)| == if n.name.Some? then 2 + |Stored(n.name.value)| else 0
  {}

  /** The loop over the names of one file. */
  method CountNames(names: seq<ImportName>, start: nat) returns (renamed: bool, nThunks: nat, nChars: nat)
    requires IsEven(start)
    ensures renamed <==> exists n :: 0 <= n < |names| && Renamed(names[n])
    ensures nThunks == |names| && nChars == start + |NameChars(names)|
  {
    hide *;
    NothingYet();
    renamed, nThunks, nChars := false, 0, start;
    for n := 0 to |names|
      invariant nThunks == n && nChars == start + |NameChars(names[..n])|
      invariant renamed <==> exists m :: 0 <= m < n && Renamed(names[m])
    {
      CountStep(names, n, nChars, start);
      if !renamed && Renamed(names[n]) { renamed := true; }
      if names[n].name.Some? {
        nChars := nChars + 2;
        nChars := nChars + |names[n].name.value| + 1;
        nChars := RoundUp(nChars);
      }
      nThunks := nThunks + 1;
    }
    assert names[..|names|] == names;
  }

  lemma NothingYet()
    ensures NameChars([]) == [] && Chars([]) == [] && ThunkCount([]) == 0
  {}

  lemma FilesSnoc(files: seq<ImportFile>, i: nat)
    requires i < |files|
    ensures Chars(files[..i + 1]) == Chars(files[..i]) + FileChars(files[i])
    ensures ThunkCount(files[..i + 1]) == ThunkCount(files[..i]) + if files[i].byway then 2 else |files[i].names| + 1
  {
    hide FileChars;
    assert files[..i + 1][..i] == files[..i];
  }

  lemma SizeOfOneFile(f: ImportFile)
    ensures |FileChars(f)| == |Stored(f.name)| + if f.byway then 0 else |NameChars(f.names)|
  {
    hide Stored, NameChars;
  }

  lemma SizeOfFile(files: seq<ImportFile>, i: nat)
    requires i < |files|
    ensures var c, f := |Chars(files[..i])|, files[i];
      && IsEven(RoundUp(c + |f.name| + 1))
      && |Chars(files[..i + 1])| == RoundUp(c + |f.name| + 1) + if f.byway then 0 else |NameChars(f.names)|
  {
    hide *;
    SizeOfOneFile(files[i]);
    CharsAreEven(files[..i]);
    FilesSnoc(files, i);
    StoredSize(|Chars(files[..i])|, files[i].name);
  }

  lemma WhatEdits(f: ImportFile)
    ensures Edited(f) <==> f.byway || Some(f.name) != f.orig || exists n :: 0 <= n < |f.names| && Renamed(f.names[n])
  {
    hide Renamed;
  }

  /** CheckImportsNeeded: what the tables will take, and whether anything was edited. */
  method CheckImportsNeeded(files: seq<ImportFile>) returns (need: bool, nTables: nat, nThunks: nat, nChars: nat)
    ensures need <==> exists i :: 0 <= i < |files| && Edited(files[i])
    ensures nTables == |files| + 1 && nChars == |Chars(files)| && nThunks == ThunkCount(files)
  {
    hide *;
    NothingYet();
    need, nTables, nThunks, nChars := false, 0, 0, 0;
    for i := 0 to |files|
      invariant need <==> exists j :: 0 <= j < i && Edited(files[j])
      invariant nTables == i && nChars == |Chars(files[..i])| && nThunks == ThunkCount(files[..i])
    {
      var f := files[i];
      FilesSnoc(files, i);
      SizeOfFile(files, i);
      WhatEdits(f);
      nChars := nChars + |f.name| + 1;
      nChars := RoundUp(nChars);
      if f.byway {
        need := true;
        nThunks := nThunks + 1;
      } else {
        if !need && Some(f.name) != f.orig { need := true; }
        var renamed, thunks, chars := CountNames(f.names, nChars);
        need, nThunks, nChars := need || renamed, nThunks + thunks, chars;
      }
      nThunks := nThunks + 1;
      nTables := nTables + 1;
    }
    nTables := nTables + 1;
    assert files[..|files|] == files;
  }

  function ThunkCount(files: seq<ImportFile>): nat {
    if files == [] then 0
    else
      var f := files[|files| - 1];
      ThunkCount(files[..|files| - 1]) + (if f.byway then 2 else |f.names| + 1)
  }

  lemma {:induction false} TableSizes(a: Addresses, files: seq<ImportFile>)
    ensures |Lookup(a, files)| == ThunkCount(files) && |Bound(files)| <= ThunkCount(files)
  {
    if files != [] { TableSizes(a, files[..|files| - 1]); }
  }

  // ---------------------------------------------------------------- more and fewer imports

  lemma EntriesSnoc(a: Addresses, at: nat, names: seq<ImportName>, i: nat)
    requires i < |names|
    ensures Entries(a, at, names[..i + 1]) == Entries(a, at, names[..i])
        + [Entry(a, at + |NameChars(names[..i])|, names[i])]
    ensures |NameChars(names[..i + 1])| <= |NameChars(names)|
  {
    hide NameChars1;
    assert names[..i + 1][..i] == names[..i];
    NamesFit(names, i + 1);
  }

  lemma {:induction false} NamesFit(names: seq<ImportName>, i: nat)
    requires i <= |names|
    ensures NameChars(names[..i]) <= NameChars(names)
    decreases |names|
  {
    hide NameChars1;
    if i < |names| {
      NamesFit(names[..|names| - 1], i);
      assert names[..|names| - 1][..i] == names[..i];
    } else {
      assert names[..i] == names;
    }
  }

  lemma NoEntries(a: Addresses, at: nat)
    ensures Entries(a, at, []) == [] && NameChars([]) == []
  {}

  lemma NameIs(a: Addresses, at: nat, n: ImportName)
    ensures NameChars1(n) == if n.name.Some? then LittleEndian(n.hint, 2) + Stored(n.name.value) else []
    ensures Entry(a, at, n) == if n.name.Some? then a.chars + at else ORDINAL_FLAG + n.ordinal
  {}

  function ThunksOf(f: ImportFile): nat { if f.byway then 2 else |f.names| + 1 }

  lemma FileIs(a: Addresses, at: nat, f: ImportFile)
    ensures FileChars(f) == Stored(f.name) + if f.byway then [] else NameChars(f.names)
    ensures FileLookup(a, at, f) == if f.byway then [ORDINAL_FLAG + 1, 0]
        else Entries(a, at + |Stored(f.name)|, f.names) + [0]
    ensures FileBound(f) == if f.byway then [ORDINAL_FLAG + 1, 0] else []
  {
    hide NameChars, Stored, Entries;
  }

  lemma TablesSnoc(a: Addresses, many: bool, files: seq<ImportFile>, i: nat)
    requires i < |files|
    ensures Chars(files[..i + 1]) == Chars(files[..i]) + FileChars(files[i])
    ensures Lookup(a, files[..i + 1]) == Lookup(a, files[..i]) + FileLookup(a, |Chars(files[..i])|, files[i])
    ensures Bound(files[..i + 1]) == Bound(files[..i]) + FileBound(files[i])
    ensures Descriptors(a, many, files[..i + 1]) == Descriptors(a, many, files[..i])
      + [FileDescriptor(a, many, |Lookup(a, files[..i])|, |Bound(files[..i])|, |Chars(files[..i])|, files[i])]
    ensures ThunkCount(files[..i + 1]) == ThunkCount(files[..i]) + ThunksOf(files[i])
  {
    hide FileChars, FileLookup, FileBound, FileDescriptor;
    assert files[..i + 1][..i] == files[..i];
  }

  /** Tables of more files start with the tables of fewer. */
  lemma {:induction false} TablesGrow(a: Addresses, files: seq<ImportFile>, i: nat)
    requires i <= |files|
    ensures Chars(files[..i]) <= Chars(files) && Lookup(a, files[..i]) <= Lookup(a, files)
        && Bound(files[..i]) <= Bound(files)
    ensures ThunkCount(files[..i]) <= ThunkCount(files)
    decreases |files| - i
  {
    hide *;
    if i < |files| {
      TablesSnoc(a, true, files, i);
      TablesGrow(a, files, i + 1);
    } else {
      assert files[..i] == files;
    }
  }

  lemma NoTables(a: Addresses, many: bool)
    ensures Chars([]) == [] && Lookup(a, []) == [] && Bound([]) == [] && Descriptors(a, many, []) == []
        && ThunkCount([]) == 0
  {}

  // ---------------------------------------------------------------- in memory

  const DESCRIPTOR := 20

  function ThunkBytes(values: seq<nat>): (b: seq<byte>)
    ensures |b| == THUNK * |values|
  {
    if values == [] then []
    else ThunkBytes(values[..|values| - 1]) + LittleEndian(values[|values| - 1], THUNK)
  }

  function DescriptorBytes(d: Descriptor): (b: seq<byte>)
    ensures |b| == DESCRIPTOR
  {
    LittleEndian(d.originalFirstThunk, 4) + LittleEndian(0, 4) + LittleEndian(d.forwarderChain, 4)
    + LittleEndian(d.name, 4) + LittleEndian(d.firstThunk, 4)
  }

  function AllDescriptorBytes(ds: seq<Descriptor>): (b: seq<byte>)
    ensures |b| == DESCRIPTOR * |ds|
  {
    if ds == [] then [] else AllDescriptorBytes(ds[..|ds| - 1]) + DescriptorBytes(ds[|ds| - 1])
  }

  lemma ThunkBytesSnoc(values: seq<nat>, v: nat)
    ensures ThunkBytes(values + [v]) == ThunkBytes(values) + LittleEndian(v, THUNK)
  {
    assert (values + [v])[..|values|] == values;
  }

  lemma DescriptorBytesSnoc(ds: seq<Descriptor>, d: Descriptor)
    ensures AllDescriptorBytes(ds + [d]) == AllDescriptorBytes(ds) + DescriptorBytes(d)
  {
    hide DescriptorBytes;
    assert (ds + [d])[..|ds|] == ds;
  }
}
