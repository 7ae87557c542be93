/** What a loader reads from the bytes of a .detour section: the imports that were written into it. */
module ImportLoader {
  import opened Basics
  import opened ImportTables
  import opened ImportEmission
  import opened ImageOutput

  // ---------------------------------------------------------------- the loader

  datatype Import = ByOrdinal(number: nat) | ByName(hint: nat, name: Text)

  datatype Loaded = Loaded(name: Text, forwarderChain: nat, imports: seq<Import>, firstThunk: nat)

  /** The k-byte number at offset i. */
  function Number(b: seq<byte>, i: nat, k: nat): nat { if i + k <= |b| then Value(b[i..i + k]) else 0 }

  function TextAt(b: seq<byte>, i: nat): Text
    decreases |b| - i
  {
    if i >= |b| || b[i] == 0 then [] else [b[i]] + TextAt(b, i + 1)
  }

  /** A thunk is an ordinal, or the address of a hint and a name; `va` is the address of the section. */
  function LoadThunk(b: seq<byte>, va: nat, v: nat): Import {
    if v >= ORDINAL_FLAG then ByOrdinal(v - ORDINAL_FLAG)
    else if v >= va then ByName(Number(b, v - va, 2), TextAt(b, v - va + 2))
    else ByName(0, [])
  }

  /** The thunks from offset i on, up to a zero. */
  function LoadThunks(b: seq<byte>, va: nat, i: nat): seq<Import>
    decreases |b| - i
  {
    if i + THUNK > |b| || Number(b, i, THUNK) == 0 then []
    else [LoadThunk(b, va, Number(b, i, THUNK))] + LoadThunks(b, va, i + THUNK)
  }

  /** The imports whose thunks are at an address; none at 0. */
  function LoadImports(b: seq<byte>, va: nat, address: nat): seq<Import> {
    if address < va || address == 0 then [] else LoadThunks(b, va, address - va)
  }

  function LoadFile(b: seq<byte>, va: nat, i: nat): Loaded {
    var name := Number(b, i + 12, 4);
    Loaded(if name >= va then TextAt(b, name - va) else [], Number(b, i + 8, 4), LoadImports(b, va, Number(b, i, 4)),
           Number(b, i + 16, 4))
  }

  /** The import descriptors from offset i on, up to one without a name. */
  function LoadFiles(b: seq<byte>, va: nat, i: nat): seq<Loaded>
    decreases |b| - i
  {
    if i + DESCRIPTOR > |b| || Number(b, i + 12, 4) == 0 then []
    else [LoadFile(b, va, i)] + LoadFiles(b, va, i + DESCRIPTOR)
  }

  // ---------------------------------------------------------------- what was meant

  function AsImport(n: ImportName): Import {
    if n.name.Some? then ByName(n.hint, n.name.value) else ByOrdinal(n.ordinal)
  }

  function AsImports(names: seq<ImportName>): (r: seq<Import>)
    ensures |r| == |names| && forall j :: 0 <= j < |r| ==> r[j] == AsImport(names[j])
  {
    seq(|names|, j requires 0 <= j < |names| => AsImport(names[j]))
  }

  /** The file as it is loaded: a byway imports ordinal 1, through the lookup table and the bound table. */
  predicate Loads(b: seq<byte>, va: nat, l: Loaded, f: ImportFile) {
    && l.name == f.name && l.forwarderChain == f.forwarderChain
    && if f.byway then l.imports == [ByOrdinal(1)] && LoadImports(b, va, l.firstThunk) == [ByOrdinal(1)]
       else l.imports == AsImports(f.names) && l.firstThunk == f.firstThunk
  }

  /** Names are C strings, and numbers fit their fields. */
  predicate GoodName(n: ImportName) {
    n.hint < 0x1_0000 && n.ordinal < ORDINAL_FLAG && (n.name.Some? ==> 0 !in n.name.value)
  }

  predicate GoodFile(f: ImportFile) {
    && 0 !in f.name && f.firstThunk < DWORD && f.forwarderChain < DWORD
    && forall j :: 0 <= j < |f.names| ==> GoodName(f.names[j])
  }

  // ---------------------------------------------------------------- numbers and strings

  lemma NumberAt(b: seq<byte>, i: nat, n: nat, k: nat)
    requires HasAt(b, i, LittleEndian(n, k)) && n < Power256(k)
    ensures Number(b, i, k) == n && i + k <= |b|
  {
    hide LittleEndian, Value;
    ReadsBack(n, k);
  }

  lemma {:induction false} TextIs(b: seq<byte>, i: nat, s: Text)
    requires HasAt(b, i, s) && i + |s| < |b| && b[i + |s|] == 0 && 0 !in s
    ensures TextAt(b, i) == s
    decreases |s|
  {
    if s != [] {
      assert b[i] == b[i..i + |s|][0] == s[0];
      assert b[i + 1..i + 1 + |s[1..]|] == b[i..i + |s|][1..] == s[1..];
      TextIs(b, i + 1, s[1..]);
    }
  }

  lemma StoredReads(b: seq<byte>, i: nat, s: Text)
    requires HasAt(b, i, Stored(s)) && 0 !in s
    ensures TextAt(b, i) == s
  {
    hide Stored;
    var t := b[i..i + |Stored(s)|];
    StoredAt(s, |s|);
    assert b[i..i + |s|] == t[..|s|] == s && b[i + |s|] == t[|s|];
    TextIs(b, i, s);
  }

  /** A front and what follows it, in the part that holds them. */
  lemma HasNext<T>(b: seq<T>, at: nat, all: seq<T>, front: seq<T>, part: seq<T>)
    requires HasAt(b, at, all) && front + part <= all
    ensures HasAt(b, at + |front|, part)
  {
    assert all == front + part + all[|front + part|..];
    HasPart(b, at, front, part, all[|front + part|..]);
  }

  predicate Starts<T(==)>(all: seq<T>, front: seq<T>, part: seq<T>) { front + part <= all }

  lemma HasNextAt<T>(b: seq<T>, at: nat, all: seq<T>, front: seq<T>, part: seq<T>, n: nat)
    requires HasAt(b, at, all) && Starts(all, front, part) && |front| == n
    ensures HasAt(b, at + n, part)
  {
    hide HasAt;
    HasNext(b, at, all, front, part);
  }

  lemma SizeOfFront(values: seq<nat>, k: nat)
    requires k <= |values|
    ensures |ThunkBytes(values[..k])| == THUNK * k
  {
    hide ThunkBytes;
  }

  lemma {:induction false} ThunkAt(values: seq<nat>, k: nat)
    requires k < |values|
    ensures Starts(ThunkBytes(values), ThunkBytes(values[..k]), LittleEndian(values[k], THUNK))
    decreases |values|
  {
    hide LittleEndian;
    var init := values[..|values| - 1];
    if k < |init| {
      ThunkAt(init, k);
      assert init[..k] == values[..k];
    }
  }

  lemma HasThunk(b: seq<byte>, at: nat, values: seq<nat>, k: nat)
    requires HasAt(b, at, ThunkBytes(values)) && k < |values|
    ensures HasAt(b, at + THUNK * k, LittleEndian(values[k], THUNK))
  {
    hide HasAt, ThunkBytes, LittleEndian, Starts;
    ThunkAt(values, k);
    SizeOfFront(values, k);
    HasNextAt(b, at, ThunkBytes(values), ThunkBytes(values[..k]), LittleEndian(values[k], THUNK), THUNK * k);
  }

  lemma EightBytes(b: seq<byte>, i: nat, v: nat)
    requires HasAt(b, i, LittleEndian(v, THUNK)) && v < QWORD
    ensures Number(b, i, THUNK) == v && i + THUNK <= |b|
  {
    hide HasAt, LittleEndian, Power256, Number;
    WordSizes();
    NumberAt(b, i, v, THUNK);
  }

  lemma ThunkReads(b: seq<byte>, at: nat, values: seq<nat>, k: nat)
    requires HasAt(b, at, ThunkBytes(values)) && k < |values| && values[k] < QWORD
    ensures Number(b, at + THUNK * k, THUNK) == values[k] && at + THUNK * k + THUNK <= |b|
  {
    hide HasAt, ThunkBytes, LittleEndian, Power256, Number;
    var i, v := at + THUNK * k, values[k];
    HasThunk(b, at, values, k);
    assert HasAt(b, i, LittleEndian(v, THUNK));
    EightBytes(b, i, v);
  }

  // ---------------------------------------------------------------- the imports of a file

  /** The section of these bytes at this address; the name table starts at offset `chars`. */
  predicate GoodSection(b: seq<byte>, va: nat) { va + |b| < DWORD }

  lemma NameReads(b: seq<byte>, va: nat, at: nat, n: ImportName, v: nat)
    requires GoodName(n) && GoodSection(b, va) && HasAt(b, at, NameChars1(n)) && at <= |b| && at > 0
    requires v == if n.name.Some? then va + at else ORDINAL_FLAG + n.ordinal
    ensures LoadThunk(b, va, v) == AsImport(n) && 0 < v < QWORD
  {
    hide LittleEndian, Stored, TextAt, HasAt, Number, Power256;
    if n.name.Some? {
      var w, s := LittleEndian(n.hint, 2), Stored(n.name.value);
      assert [] + w + s == w + s && w + s + [] == w + s;
      HasPart(b, at, [], w, s);
      HasPart(b, at, w, s, []);
      WordSizes();
      NumberAt(b, at, n.hint, 2);
      StoredReads(b, at + 2, n.name.value);
    }
  }

  lemma {:induction false} EntryAt(a: Addresses, at: nat, names: seq<ImportName>, j: nat)
    requires j < |names|
    ensures Entries(a, at, names)[j] == Entry(a, at + |NameChars(names[..j])|, names[j])
    decreases |names|
  {
    hide NameChars, Entry;
    var init := names[..|names| - 1];
    if j < |init| {
      EntryAt(a, at, init, j);
      assert init[..j] == names[..j];
    }
  }

  /** Every thunk of a list of imports reads back as its import; the names are at offset c + at. */
  lemma EntryReads(b: seq<byte>, va: nat, a: Addresses, c: nat, at: nat, names: seq<ImportName>, j: nat)
    requires j < |names| && GoodName(names[j]) && GoodSection(b, va) && a.chars == va + c && c > 0
    requires HasAt(b, c + at, NameChars(names))
    ensures var v := Entries(a, at, names)[j]; LoadThunk(b, va, v) == AsImport(names[j]) && 0 < v < QWORD
  {
    hide NameChars, NameChars1, Entries, AsImport, LoadThunk, GoodName, GoodSection;
    EntryAt(a, at, names, j);
    NamesSnoc(names, j);
    NamesFit(names, j + 1);
    HasNext(b, c + at, NameChars(names), NameChars(names[..j]), NameChars1(names[j]));
    NameReads(b, va, c + at + |NameChars(names[..j])|, names[j], Entries(a, at, names)[j]);
  }

  lemma {:induction false} LoadThunksIs(b: seq<byte>, va: nat, i: nat, values: seq<nat>, k: nat)
    requires HasAt(b, i, ThunkBytes(values + [0])) && k <= |values|
    requires forall j :: 0 <= j < |values| ==> 0 < values[j] < QWORD
    ensures |LoadThunks(b, va, i + THUNK * k)| == |values| - k
    ensures forall j :: k <= j < |values| ==> LoadThunks(b, va, i + THUNK * k)[j - k] == LoadThunk(b, va, values[j])
    decreases |values| - k
  {
    hide LoadThunk, HasAt, ThunkBytes, Number;
    ThunkReads(b, i, values + [0], k);
    if k < |values| {
      assert (values + [0])[k] == values[k];
      LoadThunksIs(b, va, i, values, k + 1);
    }
  }

  lemma ImportsRead(b: seq<byte>, va: nat, a: Addresses, c: nat, at: nat, names: seq<ImportName>, i: nat)
    requires forall j :: 0 <= j < |names| ==> GoodName(names[j])
    requires GoodSection(b, va) && a.chars == va + c && c > 0 && HasAt(b, c + at, NameChars(names))
    requires HasAt(b, i, ThunkBytes(Entries(a, at, names) + [0]))
    ensures LoadThunks(b, va, i) == AsImports(names)
  {
    hide NameChars, Entries, AsImport, AsImports, LoadThunk, LoadThunks, GoodName, GoodSection, HasAt, ThunkBytes;
    var values := Entries(a, at, names);
    forall j | 0 <= j < |values| ensures LoadThunk(b, va, values[j]) == AsImport(names[j]) && 0 < values[j] < QWORD {
      EntryReads(b, va, a, c, at, names, j);
    }
    LoadThunksIs(b, va, i, values, 0);
  }

  lemma OrdinalOne(b: seq<byte>, va: nat, i: nat)
    requires HasAt(b, i, ThunkBytes([ORDINAL_FLAG + 1, 0]))
    ensures LoadThunks(b, va, i) == [ByOrdinal(1)]
  {
    hide HasAt, ThunkBytes, LoadThunks;
    var values := [ORDINAL_FLAG + 1];
    assert values + [0] == [ORDINAL_FLAG + 1, 0];
    LoadThunksIs(b, va, i, values, 0);
    assert i + THUNK * 0 == i;
    assert LoadThunks(b, va, i)[0] == LoadThunk(b, va, values[0]) == ByOrdinal(1);
  }

  // ---------------------------------------------------------------- the parts of one file

  lemma {:induction false} ThunkBytesConcat(x: seq<nat>, y: seq<nat>)
    ensures ThunkBytes(x + y) == ThunkBytes(x) + ThunkBytes(y)
    decreases |y|
  {
    hide LittleEndian;
    if y == [] {
      assert x + y == x;
    } else {
      var init, v := y[..|y| - 1], y[|y| - 1];
      assert x + y == (x + init) + [v] && y == init + [v];
      ThunkBytesSnoc(x + init, v);
      ThunkBytesSnoc(init, v);
      ThunkBytesConcat(x, init);
    }
  }

  lemma HasThunks(b: seq<byte>, at: nat, all: seq<nat>, front: seq<nat>, part: seq<nat>)
    requires HasAt(b, at, ThunkBytes(all)) && front + part <= all
    ensures HasAt(b, at + THUNK * |front|, ThunkBytes(part))
  {
    hide HasAt, ThunkBytes;
    assert all == (front + part) + all[|front + part|..];
    ThunkBytesConcat(front + part, all[|front + part|..]);
    ThunkBytesConcat(front, part);
    HasNext(b, at, ThunkBytes(all), ThunkBytes(front), ThunkBytes(part));
  }

  lemma {:induction false} DescriptorIn(ds: seq<Descriptor>, k: nat)
    requires k < |ds|
    ensures Starts(AllDescriptorBytes(ds), AllDescriptorBytes(ds[..k]), DescriptorBytes(ds[k]))
    decreases |ds|
  {
    hide DescriptorBytes;
    var init := ds[..|ds| - 1];
    if k < |init| {
      DescriptorIn(init, k);
      assert init[..k] == ds[..k];
    }
  }

  lemma HasDescriptor(b: seq<byte>, at: nat, ds: seq<Descriptor>, k: nat)
    requires HasAt(b, at, AllDescriptorBytes(ds)) && k < |ds|
    ensures HasAt(b, at + DESCRIPTOR * k, DescriptorBytes(ds[k]))
  {
    hide HasAt, AllDescriptorBytes, DescriptorBytes, Starts;
    DescriptorIn(ds, k);
    assert |AllDescriptorBytes(ds[..k])| == DESCRIPTOR * k;
    HasNextAt(b, at, AllDescriptorBytes(ds), AllDescriptorBytes(ds[..k]), DescriptorBytes(ds[k]), DESCRIPTOR * k);
  }

  /** The fields of a descriptor in memory. */
  lemma FieldsAre(d: Descriptor)
    ensures var s := DescriptorBytes(d);
      && s[0..4] == LittleEndian(d.originalFirstThunk, 4) && s[8..12] == LittleEndian(d.forwarderChain, 4)
      && s[12..16] == LittleEndian(d.name, 4) && s[16..20] == LittleEndian(d.firstThunk, 4)
  {
    hide LittleEndian;
  }

  lemma FieldReads(b: seq<byte>, i: nat, d: seq<byte>, j: nat, n: nat)
    requires HasAt(b, i, d) && j + 4 <= |d| && d[j..j + 4] == LittleEndian(n, 4) && n < DWORD
    ensures Number(b, i + j, 4) == n
  {
    hide LittleEndian, Power256, Number;
    SliceOfSlice(b, i, |d|, j, j + 4);
    WordSizes();
    NumberAt(b, i + j, n, 4);
  }

  lemma DescriptorReads(b: seq<byte>, i: nat, d: Descriptor)
    requires HasAt(b, i, DescriptorBytes(d))
    requires d.originalFirstThunk < DWORD && d.forwarderChain < DWORD && d.name < DWORD && d.firstThunk < DWORD
    ensures i + DESCRIPTOR <= |b| && Number(b, i, 4) == d.originalFirstThunk && Number(b, i + 8, 4) == d.forwarderChain
    ensures Number(b, i + 12, 4) == d.name && Number(b, i + 16, 4) == d.firstThunk
  {
    hide DescriptorBytes, LittleEndian, Number;
    FieldsAre(d);
    var s := DescriptorBytes(d);
    FieldReads(b, i, s, 0, d.originalFirstThunk);
    FieldReads(b, i, s, 8, d.forwarderChain);
    FieldReads(b, i, s, 12, d.name);
    FieldReads(b, i, s, 16, d.firstThunk);
  }

  lemma {:induction false} DescriptorAt(a: Addresses, many: bool, files: seq<ImportFile>, i: nat)
    requires i < |files|
    ensures Descriptors(a, many, files)[i] ==
      FileDescriptor(a, many, |Lookup(a, files[..i])|, |Bound(files[..i])|, |Chars(files[..i])|, files[i])
    decreases |files|
  {
    hide Lookup, Bound, Chars, FileDescriptor;
    var init := files[..|files| - 1];
    if i < |init| {
      DescriptorAt(a, many, init, i);
      assert init[..i] == files[..i];
    }
  }

  /** Where the four tables are. */
  datatype Offsets = Offsets(lookup: nat, bound: nat, chars: nat, imports: nat)

  /** The tables for the imports are in the section of these bytes at address va. */
  predicate HasTables(b: seq<byte>, va: nat, t: Offsets, files: seq<ImportFile>) {
    var a := Addresses(va + t.lookup, va + t.bound, va + t.chars);
    && t.lookup > 0 && t.bound > 0 && t.chars > 0
    && HasAt(b, t.lookup, ThunkBytes(Lookup(a, files))) && HasAt(b, t.bound, ThunkBytes(Bound(files)))
    && HasAt(b, t.chars, Chars(files))
    && HasAt(b, t.imports, AllDescriptorBytes(Descriptors(a, ThunkCount(files) > 1, files)))
    && HasAt(b, t.imports + DESCRIPTOR * |files|, Zeros(DESCRIPTOR))
  }

  /** The parts of file i in the tables. */
  lemma PartsOfFile(b: seq<byte>, va: nat, t: Offsets, files: seq<ImportFile>, i: nat)
    requires HasTables(b, va, t, files) && i < |files|
    ensures var a := Addresses(va + t.lookup, va + t.bound, va + t.chars);
      var l, d, c := |Lookup(a, files[..i])|, |Bound(files[..i])|, |Chars(files[..i])|;
      && HasAt(b, t.chars + c, FileChars(files[i]))
          && HasAt(b, t.lookup + THUNK * l, ThunkBytes(FileLookup(a, c, files[i])))
      && HasAt(b, t.bound + THUNK * d, ThunkBytes(FileBound(files[i])))
      && HasAt(b, t.imports + DESCRIPTOR * i,
          DescriptorBytes(FileDescriptor(a, ThunkCount(files) > 1, l, d, c, files[i])))
      && ThunksOf(files[i]) <= ThunkCount(files)
  {
    hide HasAt, Lookup, Bound, Chars, FileChars, FileLookup, FileBound, FileDescriptor, Descriptors, ThunkCount,
        ThunksOf;
    hide ThunkBytes, AllDescriptorBytes, DescriptorBytes, Zeros;
    var a, many := Addresses(va + t.lookup, va + t.bound, va + t.chars), ThunkCount(files) > 1;
    TablesSnoc(a, many, files, i);
    TablesGrow(a, files, i + 1);
    HasNext(b, t.chars, Chars(files), Chars(files[..i]), FileChars(files[i]));
    HasThunks(b, t.lookup, Lookup(a, files), Lookup(a, files[..i]), FileLookup(a, |Chars(files[..i])|, files[i]));
    HasThunks(b, t.bound, Bound(files), Bound(files[..i]), FileBound(files[i]));
    DescriptorAt(a, many, files, i);
    HasDescriptor(b, t.imports, Descriptors(a, many, files), i);
  }

  lemma Inside<T>(b: seq<T>, at: nat, part: seq<T>)
    requires HasAt(b, at, part)
    ensures at + |part| <= |b|
  {}

  /** The name of a file, and the names of its imports. */
  lemma CharsOfFile(b: seq<byte>, at: nat, f: ImportFile)
    requires HasAt(b, at, FileChars(f)) && 0 !in f.name
    ensures TextAt(b, at) == f.name && (!f.byway ==> HasAt(b, at + |Stored(f.name)|, NameChars(f.names)))
  {
    hide HasAt, Stored, NameChars, TextAt, Entries;
    FileIs(Addresses(0, 0, 0), 0, f);
    var name, names := Stored(f.name), if f.byway then [] else NameChars(f.names);
    HasNext(b, at, FileChars(f), [], name) by { assert [] + name == name; }
    HasNext(b, at, FileChars(f), name, names);
    StoredReads(b, at, f.name);
  }

  /** A file loads from its parts. */
  lemma FileLoads(b: seq<byte>, va: nat, t: Offsets, l: nat, d: nat, c: nat, many: bool, f: ImportFile, i: nat)
    requires GoodSection(b, va) && GoodFile(f) && t.lookup > 0 && t.bound > 0 && t.chars > 0
        && (!many && !f.byway ==> f.names == [])
    requires var a := Addresses(va + t.lookup, va + t.bound, va + t.chars);
      && HasAt(b, t.chars + c, FileChars(f)) && HasAt(b, t.lookup + THUNK * l, ThunkBytes(FileLookup(a, c, f)))
      && HasAt(b, t.bound + THUNK * d, ThunkBytes(FileBound(f)))
      && HasAt(b, i, DescriptorBytes(FileDescriptor(a, many, l, d, c, f)))
    ensures i + DESCRIPTOR <= |b| && Number(b, i + 12, 4) != 0 && Loads(b, va, LoadFile(b, va, i), f)
  {
    hide HasAt, FileChars, FileLookup, FileBound, ThunkBytes, DescriptorBytes, TextAt, LoadThunks, Number, Stored,
        NameChars;
    hide Entries, GoodName, GoodFile, AsImports;
    var a := Addresses(va + t.lookup, va + t.bound, va + t.chars);
    var desc := FileDescriptor(a, many, l, d, c, f);
    GoodNumbers(f);
    FileIs(a, c, f);
    Inside(b, t.chars + c, FileChars(f));
    Inside(b, t.lookup + THUNK * l, ThunkBytes(FileLookup(a, c, f)));
    Inside(b, t.bound + THUNK * d, ThunkBytes(FileBound(f)));
    DescriptorReads(b, i, desc);
    CharsOfFile(b, t.chars + c, f);
    if f.byway {
      OrdinalOne(b, va, t.lookup + THUNK * l);
      OrdinalOne(b, va, t.bound + THUNK * d);
    } else if many {
      ImportsRead(b, va, a, t.chars, c + |Stored(f.name)|, f.names, t.lookup + THUNK * l);
    } else {
      assert |AsImports(f.names)| == 0;
    }
  }

  lemma GoodNumbers(f: ImportFile)
    requires GoodFile(f)
    ensures 0 !in f.name && f.firstThunk < DWORD && f.forwarderChain < DWORD
    ensures forall j :: 0 <= j < |f.names| ==> GoodName(f.names[j])
  {}

  // ---------------------------------------------------------------- the whole section

  lemma FileOfSection(b: seq<byte>, va: nat, t: Offsets, files: seq<ImportFile>, i: nat)
    requires GoodSection(b, va) && HasTables(b, va, t, files) && i < |files| && GoodFile(files[i])
    ensures var at := t.imports + DESCRIPTOR * i;
      at + DESCRIPTOR <= |b| && Number(b, at + 12, 4) != 0 && Loads(b, va, LoadFile(b, va, at), files[i])
  {
    hide HasAt, Lookup, Bound, Chars, FileChars, FileLookup, FileBound, FileDescriptor, Descriptors, ThunkCount;
    hide ThunkBytes, DescriptorBytes, LoadFile, Loads, GoodFile, Number;
    var a := Addresses(va + t.lookup, va + t.bound, va + t.chars);
    PartsOfFile(b, va, t, files, i);
    FileLoads(b, va, t, |Lookup(a, files[..i])|, |Bound(files[..i])|, |Chars(files[..i])|, ThunkCount(files) > 1,
        files[i],
              t.imports + DESCRIPTOR * i);
  }

  lemma ZeroReads(b: seq<byte>, i: nat)
    requires HasAt(b, i, Zeros(DESCRIPTOR))
    ensures Number(b, i + 12, 4) == 0
  {
    SliceOfSlice(b, i, DESCRIPTOR, 12, 16);
    var z := b[i + 12..i + 16];
    assert z == [0, 0, 0, 0];
    assert Value([0]) == 0 && Value([0, 0]) == 0 && Value([0, 0, 0]) == 0;
  }

  /** The import table of the section loads as the list of files it was made from: every name, every
      import in order, and where the addresses go. */
  lemma {:induction false} SectionLoads(b: seq<byte>, va: nat, t: Offsets, files: seq<ImportFile>, k: nat)
    requires GoodSection(b, va) && HasTables(b, va, t, files) && k <= |files|
    requires forall i :: 0 <= i < |files| ==> GoodFile(files[i])
    ensures var r := LoadFiles(b, va, t.imports + DESCRIPTOR * k);
      |r| == |files| - k && forall i :: k <= i < |files| ==> Loads(b, va, r[i - k], files[i])
    decreases |files| - k
  {
    hide HasTables, LoadFile, Loads, GoodFile, Number;
    if k < |files| {
      FileOfSection(b, va, t, files, k);
      SectionLoads(b, va, t, files, k + 1);
    } else {
      LastDescriptor(b, va, t, files);
    }
  }

  lemma LastDescriptor(b: seq<byte>, va: nat, t: Offsets, files: seq<ImportFile>)
    requires HasTables(b, va, t, files)
    ensures Number(b, t.imports + DESCRIPTOR * |files| + 12, 4) == 0
  {
    hide HasAt, Zeros, Number;
    ZeroReads(b, t.imports + DESCRIPTOR * |files|);
  }

  /** What WriteDetourSection has laid out and filled loads as the imports. */
  lemma FilledSectionLoads(b: seq<byte>, va: nat, end: nat, pieces: seq<Piece>, o: Originals, prePE: seq<byte>,
      data: seq<byte>,
                           files: seq<ImportFile>)
    requires LaidOut(pieces, Sizes(|prePE|, ThunkCount(files), |Chars(files)|, |data|, |files| + 1), va, end)
        && |pieces| == 7
    requires end <= |b| && GoodSection(b, va) && Filled(b, pieces, o, prePE, data, files)
    requires forall i :: 0 <= i < |files| ==> GoodFile(files[i])
    ensures var r := LoadFiles(b, va, pieces[6].at);
      |r| == |files| && forall i :: 0 <= i < |files| ==> Loads(b, va, r[i], files[i])
  {
    hide HasAt, LoadFiles, LoadFile, Loads, GoodFile, Lookup, Bound, Chars, Descriptors, ThunkCount, Zeros, Number;
    hide LaidOut, Sizes;
    SevenPieces(pieces, |prePE|, ThunkCount(files), |Chars(files)|, |data|, |files| + 1, va, end);
    var t := Offsets(pieces[2].at, pieces[3].at, pieces[4].at, pieces[6].at);
    assert HasTables(b, va, t, files);
    SectionLoads(b, va, t, files, 0);
    assert t.imports + DESCRIPTOR * 0 == pieces[6].at;
  }

  lemma DwordsNext(values: seq<nat>, k: nat)
    requires k < |values|
    ensures Dwords(values)[4 * k..4 * k + 4] == LittleEndian(values[k], 4)
    decreases k
  {
    hide LittleEndian;
    var first, rest := LittleEndian(values[0], 4), Dwords(values[1..]);
    assert Dwords(values) == first + rest;
    if k == 0 {
      assert (first + rest)[..4] == first;
    } else {
      DwordsNext(values[1..], k - 1);
      assert (first + rest)[4 * k..4 * k + 4] == rest[4 * (k - 1)..4 * (k - 1) + 4];
    }
  }

  // ---------------------------------------------------------------- the header, read again

  /** What Read takes from a .detour section: the fields it puts back into the headers of the image, the
      pre-PE data and the payloads. */
  datatype Reread = Reread(originals: Originals, prePE: seq<byte>, data: seq<byte>)

  function Part(b: seq<byte>, from: nat, to: nat): seq<byte> { if from <= to <= |b| then b[from..to] else [] }

  function ReadSection(b: seq<byte>): Reread {
    var from := if Number(b, 8, 4) == 0 then Number(b, 0, 4) else Number(b, 8, 4);
    Reread(
      Originals(Number(b, 16, 4), Number(b, 20, 4), Number(b, 24, 4), Number(b, 28, 4), Number(b, 32, 4),
                Number(b, 36, 4), Number(b, 40, 4), Number(b, 48, 4)),
      Part(b, SECTION_HEADER, SECTION_HEADER + Number(b, 44, 4)), Part(b, from, Number(b, 12, 4)))
  }

  /** The fields are 32-bit numbers. */
  predicate Fit(o: Originals) {
    && o.importVa < DWORD && o.importSize < DWORD && o.boundVa < DWORD && o.boundSize < DWORD
    && o.iatVa < DWORD && o.iatSize < DWORD && o.sizeOfImage < DWORD && o.clrFlags < DWORD
  }

  lemma HeaderField(b: seq<byte>, fields: seq<nat>, k: nat)
    requires HasAt(b, 0, Dwords(fields)) && k < |fields| && fields[k] < DWORD
    ensures Number(b, 4 * k, 4) == fields[k]
  {
    hide *;
    DwordsNext(fields, k);
    FieldReads(b, 0, Dwords(fields), 4 * k, fields[k]);
  }

  /** The section starts with its signature, and reading it again gives the original fields, the pre-PE
      data and the payloads it was written with. */
  lemma FilledSectionRereads(b: seq<byte>, va: nat, end: nat, pieces: seq<Piece>, o: Originals, prePE: seq<byte>,
      data: seq<byte>, files: seq<ImportFile>)
    requires LaidOut(pieces, Sizes(|prePE|, ThunkCount(files), |Chars(files)|, |data|, |files| + 1), va, end)
        && |pieces| == 7
    requires |b| < DWORD && Fit(o) && Filled(b, pieces, o, prePE, data, files)
    ensures Number(b, 0, 4) == SECTION_HEADER && Number(b, 4, 4) == SIGNATURE
    ensures ReadSection(b) == Reread(o, prePE, data)
  {
    hide Lookup, Bound, Chars, Descriptors, ThunkCount, ThunkBytes, AllDescriptorBytes, Zeros, Number, LaidOut, Sizes,
        Dwords;
    SevenPieces(pieces, |prePE|, ThunkCount(files), |Chars(files)|, |data|, |files| + 1, va, end);
    var at := pieces[5].at;
    assert pieces[5].va - pieces[0].va == at;
    var f := HeaderFields(o, at, |data|, |prePE|);
    assert HasAt(b, 0, Dwords(f));
    forall k | 0 <= k < 13 ensures Number(b, 4 * k, 4) == f[k] { HeaderField(b, f, k); }
    assert Number(b, 4 * 0, 4) == f[0] && Number(b, 4 * 1, 4) == f[1] && Number(b, 4 * 2, 4) == f[2];
    assert Number(b, 4 * 3, 4) == f[3] && Number(b, 4 * 4, 4) == f[4] && Number(b, 4 * 5, 4) == f[5];
    assert Number(b, 4 * 6, 4) == f[6] && Number(b, 4 * 7, 4) == f[7] && Number(b, 4 * 8, 4) == f[8];
    assert Number(b, 4 * 9, 4) == f[9] && Number(b, 4 * 10, 4) == f[10] && Number(b, 4 * 11, 4) == f[11];
    assert Number(b, 4 * 12, 4) == f[12];
  }
}
