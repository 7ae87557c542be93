/** The emission pass: the tables being filled in the output buffer (app/hook-win32/src/image.cpp). */
module ImportEmission {
  import opened Basics
  import opened ImportTables

  // ---------------------------------------------------------------- the places of the tables

  /** Offsets of the four tables in the buffer, and for how many thunks, characters and descriptors there
      is room. */
  datatype Places = Places(lookup: nat, bound: nat, chars: nat, imports: nat, thunks: nat, size: nat, tables: nat)

  predicate InOrder(p: Places, length: nat) {
    && p.lookup + THUNK * p.thunks <= p.bound && p.bound + THUNK * p.thunks <= p.chars
    && p.chars + p.size <= p.imports && p.imports + DESCRIPTOR * p.tables <= length
  }

  /** What has been written into the tables so far. */
  datatype Contents = Contents(lookup: seq<nat>, bound: seq<nat>, chars: seq<byte>, descriptors: seq<Descriptor>)

  predicate Fits(c: Contents, p: Places) {
    |c.lookup| <= p.thunks && |c.bound| <= p.thunks && |c.chars| <= p.size && |c.descriptors| <= p.tables
  }

  /** The buffer holds these contents at their places, zeros behind the names and the descriptors, and
      everything else as in `start`. */
  predicate Holding(b: seq<byte>, start: seq<byte>, p: Places, c: Contents) {
    && InOrder(p, |b|) && Fits(c, p) && |b| == |start|
    && HasAt(b, p.lookup, ThunkBytes(c.lookup)) && HasAt(b, p.bound, ThunkBytes(c.bound)) && HasAt(b, p.chars, c.chars)
    && HasAt(b, p.imports, AllDescriptorBytes(c.descriptors))
    && HasAt(b, p.chars + |c.chars|, Zeros(p.size - |c.chars|))
    && HasAt(b, p.imports + DESCRIPTOR * |c.descriptors|, Zeros(DESCRIPTOR * (p.tables - |c.descriptors|)))
    && HasAt(b, 0, start[..p.lookup]) && HasAt(b, p.chars + p.size, start[p.chars + p.size..p.imports])
  }

  lemma FewerZeros(b: seq<byte>, at: nat, n: nat, k: nat)
    requires HasAt(b, at, Zeros(n)) && k <= n
    ensures HasAt(b, at + k, Zeros(n - k))
  {
    var z := Zeros(n);
    assert z == z[..k] + Zeros(n - k) + [];
    HasPart(b, at, z[..k], Zeros(n - k), []);
  }

  /** All other parts stay when `part` is written at `at`. */
  lemma PartStays(b: seq<byte>, at: nat, part: seq<byte>, i: nat, other: seq<byte>)
    requires at + |part| <= |b| && HasAt(b, i, other) && (i + |other| <= at || at + |part| <= i)
    ensures HasAt(Overwrite(b, at, part), i, other)
  {
    OverwriteKeeps(b, at, part, i, other);
  }

  lemma LookupWritten(b: seq<byte>, start: seq<byte>, p: Places, c: Contents, v: nat)
    requires Holding(b, start, p, c) && |c.lookup| < p.thunks
    ensures Holding(Overwrite(b, p.lookup + THUNK * |c.lookup|, LittleEndian(v, THUNK)), start, p,
        c.(lookup := c.lookup + [v]))
  {
    hide HasAt, Overwrite, ThunkBytes, AllDescriptorBytes, LittleEndian, Zeros;
    var at, part := p.lookup + THUNK * |c.lookup|, LittleEndian(v, THUNK);
    ThunkBytesSnoc(c.lookup, v);
    OverwriteExtends(b, p.lookup, ThunkBytes(c.lookup), part);
    PartStays(b, at, part, p.bound, ThunkBytes(c.bound));
    PartStays(b, at, part, p.chars, c.chars);
    PartStays(b, at, part, p.imports, AllDescriptorBytes(c.descriptors));
    PartStays(b, at, part, p.chars + |c.chars|, Zeros(p.size - |c.chars|));
    PartStays(b, at, part, p.imports + DESCRIPTOR * |c.descriptors|, Zeros(DESCRIPTOR * (p.tables - |c.descriptors|)));
    PartStays(b, at, part, 0, start[..p.lookup]);
    PartStays(b, at, part, p.chars + p.size, start[p.chars + p.size..p.imports]);
  }

  lemma BoundWritten(b: seq<byte>, start: seq<byte>, p: Places, c: Contents, v: nat)
    requires Holding(b, start, p, c) && |c.bound| < p.thunks
    ensures Holding(Overwrite(b, p.bound + THUNK * |c.bound|, LittleEndian(v, THUNK)), start, p,
        c.(bound := c.bound + [v]))
  {
    hide HasAt, Overwrite, ThunkBytes, AllDescriptorBytes, LittleEndian, Zeros;
    var at, part := p.bound + THUNK * |c.bound|, LittleEndian(v, THUNK);
    ThunkBytesSnoc(c.bound, v);
    OverwriteExtends(b, p.bound, ThunkBytes(c.bound), part);
    PartStays(b, at, part, p.lookup, ThunkBytes(c.lookup));
    PartStays(b, at, part, p.chars, c.chars);
    PartStays(b, at, part, p.imports, AllDescriptorBytes(c.descriptors));
    PartStays(b, at, part, p.chars + |c.chars|, Zeros(p.size - |c.chars|));
    PartStays(b, at, part, p.imports + DESCRIPTOR * |c.descriptors|, Zeros(DESCRIPTOR * (p.tables - |c.descriptors|)));
    PartStays(b, at, part, 0, start[..p.lookup]);
    PartStays(b, at, part, p.chars + p.size, start[p.chars + p.size..p.imports]);
  }

  lemma CharsWritten(b: seq<byte>, start: seq<byte>, p: Places, c: Contents, part: seq<byte>)
    requires Holding(b, start, p, c) && |c.chars| + |part| <= p.size
    ensures Holding(Overwrite(b, p.chars + |c.chars|, part), start, p, c.(chars := c.chars + part))
  {
    hide HasAt, Overwrite, ThunkBytes, AllDescriptorBytes, Zeros;
    var at, n := p.chars + |c.chars|, p.size - |c.chars|;
    OverwriteExtends(b, p.chars, c.chars, part);
    FewerZeros(b, at, n, |part|);
    PartStays(b, at, part, at + |part|, Zeros(n - |part|));
    PartStays(b, at, part, p.lookup, ThunkBytes(c.lookup));
    PartStays(b, at, part, p.bound, ThunkBytes(c.bound));
    PartStays(b, at, part, p.imports, AllDescriptorBytes(c.descriptors));
    PartStays(b, at, part, p.imports + DESCRIPTOR * |c.descriptors|, Zeros(DESCRIPTOR * (p.tables - |c.descriptors|)));
    PartStays(b, at, part, 0, start[..p.lookup]);
    PartStays(b, at, part, p.chars + p.size, start[p.chars + p.size..p.imports]);
  }

  lemma DescriptorWritten(b: seq<byte>, start: seq<byte>, p: Places, c: Contents, d: Descriptor)
    requires Holding(b, start, p, c) && |c.descriptors| < p.tables
    ensures Holding(Overwrite(b, p.imports + DESCRIPTOR * |c.descriptors|, DescriptorBytes(d)), start, p,
                    c.(descriptors := c.descriptors + [d]))
  {
    hide HasAt, Overwrite, ThunkBytes, AllDescriptorBytes, DescriptorBytes, Zeros;
    var at, part, n := p.imports + DESCRIPTOR * |c.descriptors|, DescriptorBytes(d), p.tables - |c.descriptors|;
    DescriptorBytesSnoc(c.descriptors, d);
    OverwriteExtends(b, p.imports, AllDescriptorBytes(c.descriptors), part);
    FewerZeros(b, at, DESCRIPTOR * n, DESCRIPTOR);
    PartStays(b, at, part, at + DESCRIPTOR, Zeros(DESCRIPTOR * n - DESCRIPTOR));
    PartStays(b, at, part, p.lookup, ThunkBytes(c.lookup));
    PartStays(b, at, part, p.bound, ThunkBytes(c.bound));
    PartStays(b, at, part, p.chars, c.chars);
    PartStays(b, at, part, p.chars + |c.chars|, Zeros(p.size - |c.chars|));
    PartStays(b, at, part, 0, start[..p.lookup]);
    PartStays(b, at, part, p.chars + p.size, start[p.chars + p.size..p.imports]);
  }

  // ---------------------------------------------------------------- the tables being filled

  /** Stores bytes into the buffer. */
  method Store(buffer: array<byte>, at: nat, part: seq<byte>)
    requires at + |part| <= buffer.Length
    modifies buffer
    ensures buffer[..] == Overwrite(old(buffer[..]), at, part)
  {
    forall j | 0 <= j < |part| { buffer[at + j] := part[j]; }
  }

  /** CImageThunks, on its piece of the output buffer. */
  class Thunks {
    const buffer: array<byte>
    const at: nat
    const va: nat
    const max: nat
    var used: nat

    constructor (buffer: array<byte>, at: nat, va: nat, max: nat)
      ensures this.buffer == buffer && this.at == at && this.va == va && this.max == max && used == 0
    {
      this.buffer, this.at, this.va, this.max, used := buffer, at, va, max, 0;
    }

    /** Where the next thunk will be. */
    method Current() returns (address: nat)
      ensures address == if max > 1 then va + THUNK * used else 0
    {
      address := if max > 1 then va + THUNK * used else 0;
    }

    method Allocate(data: nat) returns (ok: bool, address: nat)
      requires at + THUNK * max <= buffer.Length
      modifies this, buffer
      ensures ok <==> old(used) < max
      ensures ok ==> address == va + THUNK * old(used) && used == old(used) + 1
      ensures ok ==> buffer[..] == Overwrite(old(buffer[..]), at + THUNK * old(used), LittleEndian(data, THUNK))
      ensures !ok ==> used == old(used) && buffer[..] == old(buffer[..])
    {
      hide LittleEndian, Overwrite;
      if used < max {
        address := va + THUNK * used;
        Store(buffer, at + THUNK * used, LittleEndian(data, THUNK));
        used := used + 1;
        return true, address;
      }
      return false, 0;
    }
  }

  /** CImageChars, on its piece of the output buffer. */
  class CharTable {
    const buffer: array<byte>
    const at: nat
    const va: nat
    const max: nat
    var used: nat

    constructor (buffer: array<byte>, at: nat, va: nat, max: nat)
      ensures this.buffer == buffer && this.at == at && this.va == va && this.max == max && used == 0
    {
      this.buffer, this.at, this.va, this.max, used := buffer, at, va, max, 0;
    }

    /** Copies `front` and the string with its NUL, and skips to an even length; what is skipped is zero
        already. */
    method Put(front: seq<byte>, s: Text) returns (ok: bool, address: nat)
      requires at + max <= buffer.Length && (|front| == 0 || |front| == 2)
      requires used <= max && HasAt(buffer[..], at + used, Zeros(max - used))
      modifies this, buffer
      ensures ok <==> old(used) + |front| + |Stored(s)| <= max
      ensures ok ==> address == va + old(used) && used == old(used) + |front| + |Stored(s)|
      ensures ok ==> buffer[..] == Overwrite(old(buffer[..]), at + old(used), front + Stored(s))
      ensures !ok ==> used == old(used) && buffer[..] == old(buffer[..])
    {
      hide RoundUp, Stored, Overwrite;
      var len := RoundUp(|s| + 1 + |front|);
      LengthOfStored(front, s);
      if used + len > max { return false, 0; }
      address := va + used;
      PaddingIsThere(buffer[..], at + used, front, s, max - used);
      Store(buffer, at + used, front + s + [0]);
      used := used + len;
      return true, address;
    }
  }

  lemma LengthOfStored(front: seq<byte>, s: Text)
    requires |front| == 0 || |front| == 2
    ensures RoundUp(|s| + 1 + |front|) == |front| + |Stored(s)|
  {}

  /** Over zeros the string with one NUL is the string with its padding. */
  lemma PaddingIsThere(b: seq<byte>, at: nat, front: seq<byte>, s: Text, n: nat)
    requires HasAt(b, at, Zeros(n)) && |front| + |Stored(s)| <= n
    ensures |front| + |s| + 1 <= n
    ensures Overwrite(b, at, front + s + [0]) == Overwrite(b, at, front + Stored(s))
  {
    hide Stored, Overwrite;
    var short, long := front + s + [0], front + Stored(s);
    assert |s| < |Stored(s)|;
    forall j | 0 <= j < |short| ensures short[j] == long[j] { StoredAt(s, j - |front|); }
    forall a | 0 <= a < |b| ensures Overwrite(b, at, short)[a] == Overwrite(b, at, long)[a] {
      OverwriteAt(b, at, short, a);
      OverwriteAt(b, at, long, a);
      if at + |short| <= a < at + |long| {
        StoredAt(s, a - at - |front|);
        assert b[at..at + n][a - at] == 0;
      }
    }
  }

  lemma StoredAt(s: Text, j: int)
    ensures 0 <= j < |s| ==> Stored(s)[j] == s[j]
    ensures |s| <= j < |Stored(s)| ==> Stored(s)[j] == 0
  {
    hide Stored;
  }

  // ---------------------------------------------------------------- the emission pass

  ghost predicate Stand(buffer: array<byte>, lookup: Thunks, bound: Thunks, chars: CharTable, p: Places, c: Contents)
    reads lookup, bound, chars
  {
    && lookup != bound && lookup.buffer == bound.buffer == chars.buffer == buffer
    && lookup.at == p.lookup && bound.at == p.bound && chars.at == p.chars
    && lookup.max == bound.max == p.thunks && chars.max == p.size
    && lookup.used == |c.lookup| && bound.used == |c.bound| && chars.used == |c.chars|
  }

  function AddressesOf(lookup: Thunks, bound: Thunks, chars: CharTable): Addresses {
    Addresses(lookup.va, bound.va, chars.va)
  }

  lemma Facts(b: seq<byte>, start: seq<byte>, p: Places, c: Contents)
    requires Holding(b, start, p, c)
    ensures InOrder(p, |b|) && Fits(c, p) && |b| == |start|
    ensures HasAt(b, p.chars + |c.chars|, Zeros(p.size - |c.chars|))
  {
    hide HasAt;
  }

  /** One thunk of the lookup table. */
  method AddLookup(lookup: Thunks, v: nat, ghost start: seq<byte>, ghost p: Places, ghost c: Contents)
      returns (ok: bool, va: nat)
    requires lookup.at == p.lookup && lookup.max == p.thunks && lookup.used == |c.lookup|
    requires Holding(lookup.buffer[..], start, p, c)
    modifies lookup, lookup.buffer
    ensures lookup.used == if |c.lookup| < p.thunks then |c.lookup| + 1 else |c.lookup|
    ensures ok <==> |c.lookup| < p.thunks
    ensures ok ==> va == lookup.va + THUNK * |c.lookup|
    ensures ok ==> Holding(lookup.buffer[..], start, p, c.(lookup := c.lookup + [v]))
  {
    hide Holding, LittleEndian, Overwrite;
    Facts(lookup.buffer[..], start, p, c);
    if |c.lookup| < p.thunks { LookupWritten(lookup.buffer[..], start, p, c, v); }
    ok, va := lookup.Allocate(v);
  }

  method AddBound(bound: Thunks, v: nat, ghost start: seq<byte>, ghost p: Places, ghost c: Contents)
      returns (ok: bool, va: nat)
    requires bound.at == p.bound && bound.max == p.thunks && bound.used == |c.bound|
    requires Holding(bound.buffer[..], start, p, c)
    modifies bound, bound.buffer
    ensures bound.used == if |c.bound| < p.thunks then |c.bound| + 1 else |c.bound|
    ensures ok <==> |c.bound| < p.thunks
    ensures ok ==> va == bound.va + THUNK * |c.bound|
    ensures ok ==> Holding(bound.buffer[..], start, p, c.(bound := c.bound + [v]))
  {
    hide Holding, LittleEndian, Overwrite;
    Facts(bound.buffer[..], start, p, c);
    if |c.bound| < p.thunks { BoundWritten(bound.buffer[..], start, p, c, v); }
    ok, va := bound.Allocate(v);
  }

  method AddChars(chars: CharTable, front: seq<byte>, s: Text, ghost start: seq<byte>, ghost p: Places,
      ghost c: Contents)
    returns (ok: bool, va: nat)
    requires chars.at == p.chars && chars.max == p.size && chars.used == |c.chars| && (|front| == 0 || |front| == 2)
    requires Holding(chars.buffer[..], start, p, c) && |c.chars| + |front| + |Stored(s)| <= p.size
    modifies chars, chars.buffer
    ensures ok && va == chars.va + |c.chars| && chars.used == |c.chars| + |front| + |Stored(s)|
    ensures Holding(chars.buffer[..], start, p, c.(chars := c.chars + (front + Stored(s))))
  {
    hide Holding, Overwrite, HasAt, Stored;
    Facts(chars.buffer[..], start, p, c);
    CharsWritten(chars.buffer[..], start, p, c, front + Stored(s));
    ok, va := chars.Put(front, s);
  }

  /** c with the names of a file that is not a byway. */
  function WithNames(c: Contents, a: Addresses, at: nat, names: seq<ImportName>, chars: seq<byte>): Contents {
    c.(lookup := c.lookup + Entries(a, at, names), chars := chars + NameChars(names))
  }

  lemma NoNames(c: Contents, a: Addresses)
    ensures WithNames(c, a, |c.chars|, [], c.chars) == c
  {
    NoEntries(a, |c.chars|);
    assert c.lookup + [] == c.lookup && c.chars + [] == c.chars;
  }

  lemma OneMoreName(c: Contents, a: Addresses, names: seq<ImportName>, i: nat)
    requires i < |names|
    ensures var c1 := WithNames(c, a, |c.chars|, names[..i], c.chars); var n := names[i];
      && |c1.lookup| == |c.lookup| + i && |c1.chars| == |c.chars| + |NameChars(names[..i])|
      && (if n.name.Some? then
            var part := LittleEndian(n.hint, 2) + Stored(n.name.value);
            && |c1.chars| + |part| <= |c.chars| + |NameChars(names)|
            && WithNames(c, a, |c.chars|, names[..i + 1], c.chars)
               == c1.(chars := c1.chars + part).(lookup := c1.lookup + [a.chars + |c1.chars|])
          else
            WithNames(c, a, |c.chars|, names[..i + 1], c.chars) ==
                c1.(lookup := c1.lookup + [ORDINAL_FLAG + n.ordinal]))
  {
    hide NameChars, NameChars1, Entries, Entry, LittleEndian, Stored;
    NamesSnoc(names, i);
    EntriesSnoc(a, |c.chars|, names, i);
    NameIs(a, |c.chars| + |NameChars(names[..i])|, names[i]);
    var part := NameChars1(names[i]);
    assert c.chars + (NameChars(names[..i]) + part) == (c.chars + NameChars(names[..i])) + part;
    assert c.chars + NameChars(names[..i]) + [] == c.chars + NameChars(names[..i]);
    var e, v := Entries(a, |c.chars|, names[..i]), Entry(a, |c.chars| + |NameChars(names[..i])|, names[i]);
    assert c.lookup + (e + [v]) == (c.lookup + e) + [v];
  }

  /** The imports of one file that is not a byway. */
  method EmitNames(names: seq<ImportName>, lookup: Thunks, bound: Thunks, chars: CharTable,
                   ghost start: seq<byte>, ghost p: Places, ghost c: Contents) returns (ok: bool)
    requires Stand(chars.buffer, lookup, bound, chars, p, c) && Holding(chars.buffer[..], start, p, c)
    requires |c.lookup| + |names| <= p.thunks && |c.chars| + |NameChars(names)| <= p.size
    modifies lookup, chars, chars.buffer
    ensures var c' := WithNames(c, AddressesOf(lookup, bound, chars), |c.chars|, names, c.chars);
      ok && Stand(chars.buffer, lookup, bound, chars, p, c') && Holding(chars.buffer[..], start, p, c')
  {
    hide Holding, NameChars, WithNames, LittleEndian, Stored;
    ghost var a := AddressesOf(lookup, bound, chars);
    ok := true;
    NoNames(c, a);
    assert names[..0] == [];
    for i := 0 to |names|
      invariant ok
      invariant Stand(chars.buffer, lookup, bound, chars, p, WithNames(c, a, |c.chars|, names[..i], c.chars))
      invariant Holding(chars.buffer[..], start, p, WithNames(c, a, |c.chars|, names[..i], c.chars))
    {
      var n := names[i];
      ghost var c1 := WithNames(c, a, |c.chars|, names[..i], c.chars);
      OneMoreName(c, a, names, i);
      if n.name.Some? {
        ghost var part := LittleEndian(n.hint, 2) + Stored(n.name.value);
        var put, va := AddChars(chars, LittleEndian(n.hint, 2), n.name.value, start, p, c1);
        var got, ignored := AddLookup(lookup, va, start, p, c1.(chars := c1.chars + part));
        ok := ok && put && got;
      } else {
        var got, ignored := AddLookup(lookup, ORDINAL_FLAG + n.ordinal, start, p, c1);
        ok := ok && got;
      }
    }
    assert names[..|names|] == names;
  }

  /** c with one more file. */
  function WithFile(c: Contents, a: Addresses, many: bool, f: ImportFile): Contents {
    Contents(c.lookup + FileLookup(a, |c.chars|, f), c.bound + FileBound(f), c.chars + FileChars(f),
             c.descriptors + [FileDescriptor(a, many, |c.lookup|, |c.bound|, |c.chars|, f)])
  }

  lemma BywayIs(c: Contents, a: Addresses, many: bool, f: ImportFile, c1: Contents)
    requires f.byway && c1 == c.(chars := c.chars + ([] + Stored(f.name)))
    ensures c1.(lookup := c1.lookup + [ORDINAL_FLAG + 1] + [0], bound := c1.bound + [ORDINAL_FLAG + 1] + [0])
      .(descriptors := c1.descriptors + [FileDescriptor(a, many, |c.lookup|, |c.bound|, |c.chars|, f)]) ==
          WithFile(c, a, many, f)
  {
    hide Stored;
    FileIs(a, |c.chars|, f);
    assert [] + Stored(f.name) == Stored(f.name) == FileChars(f);
    assert c.lookup + [ORDINAL_FLAG + 1] + [0] == c.lookup + [ORDINAL_FLAG + 1, 0];
    assert c.bound + [ORDINAL_FLAG + 1] + [0] == c.bound + [ORDINAL_FLAG + 1, 0];
  }

  lemma NormalIs(c: Contents, a: Addresses, many: bool, f: ImportFile, c1: Contents)
    requires !f.byway && c1 == c.(chars := c.chars + ([] + Stored(f.name)))
    ensures var c2 := WithNames(c1, a, |c1.chars|, f.names, c1.chars);
      c2.(lookup := c2.lookup + [0])
        .(descriptors := c2.descriptors + [FileDescriptor(a, many, |c.lookup|, |c.bound|, |c.chars|, f)]) ==
            WithFile(c, a, many, f)
    ensures |WithNames(c1, a, |c1.chars|, f.names, c1.chars).lookup| == |c.lookup| + |f.names|
  {
    hide Stored, NameChars, Entries;
    FileIs(a, |c.chars|, f);
    assert [] + Stored(f.name) == Stored(f.name);
    var e := Entries(a, |c1.chars|, f.names);
    assert c.lookup + e + [0] == c.lookup + (e + [0]);
    assert c.chars + Stored(f.name) + NameChars(f.names) == c.chars + (Stored(f.name) + NameChars(f.names));
    assert c.bound + [] == c.bound;
  }

  /** One round of the loop over the import files; `dst` is where its descriptor goes. */
  method EmitFile(f: ImportFile, lookup: Thunks, bound: Thunks, chars: CharTable, dst: nat,
                  ghost start: seq<byte>, ghost p: Places, ghost c: Contents) returns (ok: bool)
    requires Stand(chars.buffer, lookup, bound, chars, p, c) && Holding(chars.buffer[..], start, p, c)
    requires dst == p.imports + DESCRIPTOR * |c.descriptors| && |c.descriptors| < p.tables
    requires |c.lookup| + ThunksOf(f) <= p.thunks && |c.bound| + |FileBound(f)| <= p.thunks
    requires |c.chars| + |FileChars(f)| <= p.size
    modifies lookup, bound, chars, chars.buffer
    ensures var c' := WithFile(c, AddressesOf(lookup, bound, chars), p.thunks > 1, f);
      ok && Stand(chars.buffer, lookup, bound, chars, p, c') && Holding(chars.buffer[..], start, p, c')
  {
    hide Holding, NameChars, WithNames, WithFile, LittleEndian, Stored, FileChars, FileBound, DescriptorBytes,
        Overwrite;
    ghost var a := AddressesOf(lookup, bound, chars);
    FileIs(a, |c.chars|, f);
    var named, nameVa := AddChars(chars, [], f.name, start, p, c);
    ghost var c1 := c.(chars := c.chars + ([] + Stored(f.name)));
    ok := named;
    var d;
    ghost var c2;
    if f.byway {
      var ok1, lookupVa := AddLookup(lookup, ORDINAL_FLAG + 1, start, p, c1);
      c2 := c1.(lookup := c1.lookup + [ORDINAL_FLAG + 1]);
      var ok2, boundVa := AddBound(bound, ORDINAL_FLAG + 1, start, p, c2);
      c2 := c2.(bound := c2.bound + [ORDINAL_FLAG + 1]);
      var ok3, ignored := AddLookup(lookup, 0, start, p, c2);
      c2 := c2.(lookup := c2.lookup + [0]);
      var ok4, ignored' := AddBound(bound, 0, start, p, c2);
      c2 := c2.(bound := c2.bound + [0]);
      ok := ok && ok1 && ok2 && ok3 && ok4;
      d := Descriptor(lookupVa, f.forwarderChain, nameVa, boundVa);
      BywayIs(c, a, p.thunks > 1, f, c1);
    } else {
      var lookupVa := lookup.Current();
      NormalIs(c, a, p.thunks > 1, f, c1);
      var ok1 := EmitNames(f.names, lookup, bound, chars, start, p, c1);
      c2 := WithNames(c1, a, |c1.chars|, f.names, c1.chars);
      var ok2, ignored := AddLookup(lookup, 0, start, p, c2);
      c2 := c2.(lookup := c2.lookup + [0]);
      ok := ok && ok1 && ok2;
      d := Descriptor(lookupVa, f.forwarderChain, nameVa, f.firstThunk);
    }
    NamesKeep(c1, a, f.names);
    Facts(chars.buffer[..], start, p, c2);
    DescriptorWritten(chars.buffer[..], start, p, c2, d);
    Store(chars.buffer, dst, DescriptorBytes(d));
  }

  lemma NamesKeep(c: Contents, a: Addresses, names: seq<ImportName>)
    ensures var c' := WithNames(c, a, |c.chars|, names, c.chars); c'.bound == c.bound && c'.descriptors == c.descriptors
  {}

  function ContentsOf(a: Addresses, many: bool, files: seq<ImportFile>): Contents {
    Contents(Lookup(a, files), Bound(files), Chars(files), Descriptors(a, many, files))
  }

  lemma ContentsSnoc(a: Addresses, many: bool, files: seq<ImportFile>, i: nat)
    requires i < |files|
    ensures ContentsOf(a, many, files[..i + 1]) == WithFile(ContentsOf(a, many, files[..i]), a, many, files[i])
    ensures |Lookup(a, files[..i])| + ThunksOf(files[i]) <= ThunkCount(files)
    ensures |Bound(files[..i])| + |FileBound(files[i])| <= ThunkCount(files)
    ensures |Chars(files[..i])| + |FileChars(files[i])| <= |Chars(files)|
  {
    hide Lookup, Bound, Chars, Descriptors, ThunkCount, FileChars, FileLookup, FileBound, FileDescriptor, ThunksOf;
    TablesSnoc(a, many, files, i);
    TablesGrow(a, files, i + 1);
    TableSizes(a, files);
    TableSizes(a, files[..i]);
  }

  /** Filling tables of the counted sizes: no allocation fails, and the lookup and name tables end full. */
  method EmitFiles(files: seq<ImportFile>, lookup: Thunks, bound: Thunks, chars: CharTable, imports: nat,
                   ghost start: seq<byte>, ghost p: Places) returns (ok: bool)
    requires p.thunks == ThunkCount(files) && p.size == |Chars(files)| && p.tables > |files| && p.imports == imports
    requires Stand(chars.buffer, lookup, bound, chars, p, Contents([], [], [], []))
    requires Holding(chars.buffer[..], start, p, Contents([], [], [], []))
    modifies lookup, bound, chars, chars.buffer
    ensures ok && lookup.used == lookup.max && chars.used == chars.max && bound.used <= bound.max
    ensures Holding(chars.buffer[..], start, p,
        ContentsOf(AddressesOf(lookup, bound, chars), ThunkCount(files) > 1, files))
  {
    hide Holding, ContentsOf, WithFile, Lookup, Bound, Chars, Descriptors, ThunkCount, ThunksOf, FileBound, FileChars;
    ghost var a, many := AddressesOf(lookup, bound, chars), p.thunks > 1;
    NoFiles(a, many);
    ok := true;
    assert files[..0] == [];
    for i := 0 to |files|
      invariant ok && Stand(chars.buffer, lookup, bound, chars, p, ContentsOf(a, many, files[..i]))
      invariant Holding(chars.buffer[..], start, p, ContentsOf(a, many, files[..i]))
    {
      ContentsSnoc(a, many, files, i);
      ContentsAre(a, many, files[..i]);
      var emitted := EmitFile(files[i], lookup, bound, chars, imports + DESCRIPTOR * i, start, p,
          ContentsOf(a, many, files[..i]));
      ok := ok && emitted;
    }
    assert files[..|files|] == files;
    ContentsAre(a, many, files);
    TableSizes(a, files);
  }

  lemma NoFiles(a: Addresses, many: bool)
    ensures ContentsOf(a, many, []) == Contents([], [], [], [])
  {}

  lemma ContentsAre(a: Addresses, many: bool, files: seq<ImportFile>)
    ensures ContentsOf(a, many, files) ==
        Contents(Lookup(a, files), Bound(files), Chars(files), Descriptors(a, many, files))
    ensures |Descriptors(a, many, files)| == |files|
  {}
}
