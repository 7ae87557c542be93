/** The output buffer of app/hook-win32/src/image.cpp and the .detour section that Write lays out in it. */
module ImageOutput {
  import opened Basics
  import opened PayloadStore
  import opened ImportTables
  import opened ImportEmission

  // ---------------------------------------------------------------- alignment

  ghost predicate Multiple(m: int, size: nat) { exists k: nat :: m == k * size }

  /** Align, for an alignment that is a power of two. */
  function Align(a: nat, size: nat): (r: nat)
    requires size > 0
    ensures Multiple(r, size) && a <= r < a + size
  {
    var q := (a + size - 1) / size;
    assert q * size + (a + size - 1) % size == a + size - 1;
    q * size
  }

  lemma AlignIsLeast(a: nat, m: nat, size: nat)
    requires size > 0 && a <= m && Multiple(m, size)
    ensures Align(a, size) <= m
  {
    hide Align;
    var k: nat :| m == k * size;
    var q: nat :| Align(a, size) == q * size;
    if q > k { Monotone(k + 1, q, size); }
  }

  lemma Monotone(a: nat, b: nat, size: nat)
    requires a <= b
    ensures a * size <= b * size
  {}

  lemma AlignedStays(a: nat, size: nat)
    requires size > 0
    ensures Multiple(a, size) ==> Align(a, size) == a
  {
    if Multiple(a, size) { AlignIsLeast(a, a, size); }
  }

  lemma MultipleSum(a: nat, b: nat, size: nat)
    requires Multiple(a, size) && Multiple(b, size)
    ensures Multiple(a + b, size)
  {
    var j: nat :| a == j * size;
    var k: nat :| b == k * size;
    assert a + b == (j + k) * size;
  }

  lemma MultipleOfEight(m: nat, size: nat)
    requires Multiple(m, size) && size % 8 == 0
    ensures m % 8 == 0
  {
    var k: nat :| m == k * size;
    var e := size / 8;
    assert m == 8 * (k * e);
  }

  // ---------------------------------------------------------------- pieces of the section

  datatype Piece = Piece(at: nat, size: nat, va: nat)

  /** The bytes that pieces of these sizes take. */
  function Taken(sizes: seq<nat>): nat {
    if sizes == [] then 0 else Taken(sizes[..|sizes| - 1]) + QuadAlign(sizes[|sizes| - 1])
  }

  lemma {:induction false} TakenIsAligned(sizes: seq<nat>)
    ensures Taken(sizes) % 8 == 0
    decreases |sizes|
  {
    if sizes != [] { TakenIsAligned(sizes[..|sizes| - 1]); }
  }

  lemma {:induction false} TakenGrows(sizes: seq<nat>, i: nat)
    requires i < |sizes|
    ensures Taken(sizes[..i + 1]) == Taken(sizes[..i]) + QuadAlign(sizes[i]) <= Taken(sizes)
    decreases |sizes| - i
  {
    hide QuadAlign;
    assert sizes[..i + 1][..i] == sizes[..i];
    if i + 1 < |sizes| { TakenGrows(sizes, i + 1); } else { assert sizes[..i + 1] == sizes; }
  }

  /** No gap but for alignment. */
  predicate Tight(pieces: seq<Piece>, sizes: seq<nat>)
    requires |pieces| == |sizes|
  {
    forall i :: 0 <= i < |pieces| ==> pieces[i].at == Taken(sizes[..i])
  }

  /** One right after the other from offset 0, each at a multiple of 8, all before `end`. */
  predicate LaidOut(pieces: seq<Piece>, sizes: seq<nat>, va: nat, end: nat) {
    && |pieces| == |sizes| && end == Taken(sizes)
    && Tight(pieces, sizes)
    && (forall i :: 0 <= i < |pieces| ==>
          && pieces[i].size == sizes[i] && pieces[i].at % 8 == 0 && pieces[i].va == va + pieces[i].at
          && pieces[i].at + pieces[i].size <= end)
    && (forall i, j :: 0 <= i < j < |pieces| ==> pieces[i].at + pieces[i].size <= pieces[j].at)
  }

  lemma OneMorePiece(pieces: seq<Piece>, sizes: seq<nat>, i: nat, va: nat, p: Piece)
    requires i < |sizes| && LaidOut(pieces, sizes[..i], va, Taken(sizes[..i]))
    requires p == Piece(Taken(sizes[..i]), sizes[i], va + Taken(sizes[..i]))
    ensures LaidOut(pieces + [p], sizes[..i + 1], va, Taken(sizes[..i + 1]))
  {
    hide Taken, Tight, QuadAlign;
    TakenGrows(sizes, i);
    TakenIsAligned(sizes[..i]);
    AlignedEight(sizes[i]);
    StaysTight(pieces, sizes, i, p);
  }

  lemma StaysTight(pieces: seq<Piece>, sizes: seq<nat>, i: nat, p: Piece)
    requires i < |sizes| && |pieces| == i && Tight(pieces, sizes[..i]) && p.at == Taken(sizes[..i])
    ensures Tight(pieces + [p], sizes[..i + 1])
  {
    hide Taken;
    forall j | 0 <= j <= i ensures (pieces + [p])[j].at == Taken(sizes[..i + 1][..j]) {
      assert sizes[..i + 1][..j] == sizes[..j] && (j < i ==> sizes[..i][..j] == sizes[..j]);
    }
  }

  class Output {
    var buffer: array<byte>
    var virtAddr: nat
    var virtSize: nat
    var fileAddr: nat
    var nextFileAddr: nat
    var nextVirtAddr: nat
    const fileAlignment: nat
    const sectionAlignment: nat

    ghost predicate Valid()
      reads this
    {
      fileAlignment > 0 && sectionAlignment > 0 && Multiple(buffer.Length, fileAlignment)
    }

    constructor (fileAlignment: nat, sectionAlignment: nat)
      requires fileAlignment > 0 && sectionAlignment > 0
      ensures Valid() && fresh(buffer)
    {
      this.fileAlignment, this.sectionAlignment := fileAlignment, sectionAlignment;
      buffer := new byte[0];
      virtAddr, virtSize, fileAddr, nextFileAddr, nextVirtAddr := 0, 0, 0, 0, 0;
      assert 0 == 0 * fileAlignment;
    }

    /** SizeOutputBuffer: the buffer keeps its contents and grows by zeros. */
    method SizeOutputBuffer(cb: nat, granted: bool) returns (ok: bool)
      requires Valid()
      modifies this`buffer
      ensures Valid() && (granted ==> ok) && (ok ==> cb <= buffer.Length) && old(buffer.Length) <= buffer.Length
      ensures buffer == old(buffer) || fresh(buffer)
      ensures buffer[..old(buffer.Length)] == old(buffer[..])
      ensures forall j :: old(buffer.Length) <= j < buffer.Length ==> buffer[j] == 0
    {
      if cb <= buffer.Length { assert buffer[..buffer.Length] == buffer[..]; return true; }
      if !granted { assert buffer[..buffer.Length] == buffer[..]; return false; }
      var size := Align(if cb < 1024 then 1024 else cb, fileAlignment);
      var bigger := new byte[size](_ => 0);
      forall j | 0 <= j < buffer.Length { bigger[j] := buffer[j]; }
      assert bigger[..buffer.Length] == buffer[..];
      buffer := bigger;
      return true;
    }

    /** AllocateOutput: the next piece of the buffer, zeroed. */
    method AllocateOutput(cb: nat) returns (ok: bool, p: Piece)
      requires Valid()
      modifies this`virtSize, buffer
      ensures Valid() && virtSize == old(virtSize) + QuadAlign(cb) && (ok <==> virtSize <= buffer.Length)
      ensures p == Piece(old(virtSize), cb, virtAddr + old(virtSize))
      ensures ok ==> buffer[..old(virtSize)] == old(buffer[..virtSize])
      ensures ok ==> buffer[virtSize..] == old(buffer[virtSize + QuadAlign(cb)..])
      ensures ok ==> forall j :: old(virtSize) <= j < virtSize ==> buffer[j] == 0
    {
      hide QuadAlign;
      var at := virtSize;
      p := Piece(at, cb, virtAddr + at);
      virtSize := virtSize + QuadAlign(cb);
      if virtSize > buffer.Length { return false, p; }
      forall j | at <= j < virtSize { buffer[j] := 0; }
      return true, p;
    }

    /** ZeroFileData writes zeros from the front of the output buffer. */
    method ZeroFileData(granted: bool) returns (ok: bool)
      requires Valid()
      modifies this`buffer, buffer
      ensures Valid() && (granted ==> ok)
      ensures buffer == old(buffer) || fresh(buffer)
    {
      ok := SizeOutputBuffer(4096, granted);
      if ok { forall j | 0 <= j < 4096 { buffer[j] := 0; } }
    }

    /** AlignFileData: only when the file address moves is the buffer used, and overwritten. */
    method AlignFileData(granted: bool) returns (ok: bool)
      requires Valid()
      modifies this`nextFileAddr, this`nextVirtAddr, this`buffer, buffer
      ensures Valid() && (granted ==> ok)
      ensures nextFileAddr == Align(old(nextFileAddr), fileAlignment)
          && nextVirtAddr == Align(old(nextVirtAddr), sectionAlignment)
      ensures buffer == old(buffer) || fresh(buffer)
      ensures Multiple(old(nextFileAddr), fileAlignment) ==>
          ok && buffer == old(buffer) && buffer[..] == old(buffer[..])
    {
      var last := nextFileAddr;
      nextFileAddr := Align(nextFileAddr, fileAlignment);
      nextVirtAddr := Align(nextVirtAddr, sectionAlignment);
      AlignedStays(last, fileAlignment);
      if nextFileAddr > last {
        ok := ZeroFileData(granted);
        return ok;
      }
      return true;
    }

    /** The allocations of Write, one after the other. */
    method AllocateAll(sizes: seq<nat>) returns (ok: bool, pieces: seq<Piece>)
      requires Valid() && virtSize == 0 && Taken(sizes) <= buffer.Length
      modifies this`virtSize, buffer
      ensures ok && Valid() && virtSize == Taken(sizes) && LaidOut(pieces, sizes, virtAddr, virtSize)
      ensures virtSize <= buffer.Length && forall j :: 0 <= j < virtSize ==> buffer[j] == 0
    {
      hide QuadAlign, Taken, Multiple, LaidOut;
      NothingTaken();
      NoPieces(virtAddr);
      ok, pieces := true, [];
      for i := 0 to |sizes|
        invariant ok && Valid() && virtSize == Taken(sizes[..i]) && LaidOut(pieces, sizes[..i], virtAddr, virtSize)
        invariant virtSize <= buffer.Length && forall j :: 0 <= j < virtSize ==> buffer[j] == 0
      {
        ghost var before, size := buffer[..virtSize], virtSize;
        TakenGrows(sizes, i);
        var got, p := AllocateOutput(sizes[i]);
        forall j | 0 <= j < size ensures buffer[j] == 0 { assert buffer[j] == buffer[..size][j] == before[j]; }
        OneMorePiece(pieces, sizes, i, virtAddr, p);
        ok, pieces := ok && got, pieces + [p];
      }
      assert sizes[..|sizes|] == sizes;
    }

    /** After the section is filled its size is added and the file aligned; the buffer stays as filled
        and holds all of the raw data. */
    method FinishSection(granted: bool) returns (ok: bool)
      requires Valid() && Multiple(nextFileAddr, fileAlignment) && virtSize <= buffer.Length
      modifies this`nextFileAddr, this`nextVirtAddr, this`buffer, buffer
      ensures ok && Valid() && buffer == old(buffer) && buffer[..] == old(buffer[..])
      ensures nextFileAddr == old(nextFileAddr) + Align(virtSize, fileAlignment)
      ensures nextVirtAddr == Align(old(nextVirtAddr) + virtSize, sectionAlignment)
      ensures Align(virtSize, fileAlignment) <= buffer.Length
    {
      MultipleSum(nextFileAddr, Align(virtSize, fileAlignment), fileAlignment);
      AlignIsLeast(virtSize, buffer.Length, fileAlignment);
      nextVirtAddr := nextVirtAddr + virtSize;
      nextFileAddr := nextFileAddr + Align(virtSize, fileAlignment);
      AlignIsLeast(nextFileAddr, nextFileAddr, fileAlignment);
      ok := AlignFileData(granted);
    }
  }

  lemma NothingTaken()
    ensures Taken([]) == 0
  {}

  lemma NoPieces(va: nat)
    ensures LaidOut([], [], va, 0)
  {}

  const SECTION_HEADER := 64

  /** The pieces of the .detour section: header, pre-PE data, lookup table, bound table, names, payloads
      and import descriptors. */
  function Sizes(cbPrePE: nat, nThunks: nat, nChars: nat, cbData: nat, nTables: nat): seq<nat> {
    [SECTION_HEADER, cbPrePE, THUNK * nThunks, THUNK * nThunks, nChars, cbData, DESCRIPTOR * nTables]
  }

  /** What Write asks SizeOutputBuffer for. */
  function Requested(cbPrePE: nat, nThunks: nat, nChars: nat, cbData: nat, nTables: nat): nat {
    QuadAlign(SECTION_HEADER) + cbPrePE + QuadAlign(cbData) + QuadAlign(THUNK * nThunks) + QuadAlign(THUNK * nThunks)
    + QuadAlign(nChars) + QuadAlign(DESCRIPTOR * nTables)
  }

  lemma Taken7(s: seq<nat>)
    requires |s| == 7
    ensures Taken(s) == QuadAlign(s[0]) + QuadAlign(s[1]) + QuadAlign(s[2]) + QuadAlign(s[3]) + QuadAlign(s[4])
        + QuadAlign(s[5]) + QuadAlign(s[6])
  {
    hide QuadAlign;
    assert s[..1][..0] == [] && s[..2][..1] == s[..1] && s[..3][..2] == s[..2] && s[..4][..3] == s[..3];
    assert s[..5][..4] == s[..4] && s[..6][..5] == s[..5];
    NothingTaken();
    assert Taken(s[..1]) == QuadAlign(s[0]);
    assert Taken(s[..2]) == QuadAlign(s[0]) + QuadAlign(s[1]);
    assert Taken(s[..3]) == QuadAlign(s[0]) + QuadAlign(s[1]) + QuadAlign(s[2]);
    assert Taken(s[..4]) == QuadAlign(s[0]) + QuadAlign(s[1]) + QuadAlign(s[2]) + QuadAlign(s[3]);
    assert Taken(s[..5]) == QuadAlign(s[0]) + QuadAlign(s[1]) + QuadAlign(s[2]) + QuadAlign(s[3]) + QuadAlign(s[4]);
  }

  /** The request is enough when the pre-PE size is a multiple of 8, and for any pre-PE size when the
      file alignment is one. */
  lemma RequestIsEnough(length: nat, fileAlignment: nat, cbPrePE: nat, nThunks: nat, nChars: nat, cbData: nat,
      nTables: nat)
    requires Requested(cbPrePE, nThunks, nChars, cbData, nTables) <= length && Multiple(length, fileAlignment)
    requires cbPrePE % 8 == 0 || fileAlignment % 8 == 0
    ensures Taken(Sizes(cbPrePE, nThunks, nChars, cbData, nTables)) <= length
  {
    var sizes := Sizes(cbPrePE, nThunks, nChars, cbData, nTables);
    Taken7(sizes);
    TakenIsAligned(sizes);
    AlignedEight(cbPrePE);
    if cbPrePE % 8 != 0 {
      MultipleOfEight(length, fileAlignment);
      NextEight(Taken(sizes), length);
    }
    hide QuadAlign;
  }

  lemma AlignedEight(n: nat)
    ensures n <= QuadAlign(n) < n + 8 && (n % 8 == 0 ==> QuadAlign(n) == n)
  {}

  lemma NextEight(m: nat, n: nat)
    requires m % 8 == 0 && n % 8 == 0
    ensures m < n + 8 ==> m <= n
  {}

  /** Sizing the buffer and allocating the pieces, all zero; only memory can be missing. */
  method LayOutSection(out: Output, cbPrePE: nat, nThunks: nat, nChars: nat, cbData: nat, nTables: nat, granted: bool)
    returns (ok: bool, pieces: seq<Piece>)
    requires out.Valid() && (cbPrePE % 8 == 0 || out.fileAlignment % 8 == 0)
    modifies out`virtAddr, out`virtSize, out`fileAddr, out`buffer, out.buffer
    ensures out.Valid() && (granted ==> ok) && (out.buffer == old(out.buffer) || fresh(out.buffer))
    ensures ok ==> out.virtSize <= out.buffer.Length && forall j :: 0 <= j < out.virtSize ==> out.buffer[j] == 0
    ensures ok ==> LaidOut(pieces, Sizes(cbPrePE, nThunks, nChars, cbData, nTables), out.nextVirtAddr, out.virtSize)
    ensures out.virtAddr == out.nextVirtAddr && out.fileAddr == out.nextFileAddr
  {
    hide QuadAlign, Taken, Requested, Multiple, LaidOut;
    out.virtAddr, out.virtSize, out.fileAddr := out.nextVirtAddr, 0, out.nextFileAddr;
    ok := out.SizeOutputBuffer(Requested(cbPrePE, nThunks, nChars, cbData, nTables), granted);
    if !ok { return false, []; }
    RequestIsEnough(out.buffer.Length, out.fileAlignment, cbPrePE, nThunks, nChars, cbData, nTables);
    ok, pieces := out.AllocateAll(Sizes(cbPrePE, nThunks, nChars, cbData, nTables));
  }

  // ---------------------------------------------------------------- the contents of the section

  /** The fields of the section header that are taken from the image. */
  datatype Originals = Originals(
    importVa: nat, importSize: nat, boundVa: nat, boundSize: nat, iatVa: nat, iatSize: nat, sizeOfImage: nat,
        clrFlags: nat)

  const SIGNATURE := 0x00727444

  function Dwords(values: seq<nat>): (b: seq<byte>)
    ensures |b| == 4 * |values|
  {
    if values == [] then [] else LittleEndian(values[0], 4) + Dwords(values[1..])
  }

  /** DETOUR_SECTION_HEADER. */
  function HeaderFields(o: Originals, dataOffset: nat, cbData: nat, cbPrePE: nat): (f: seq<nat>)
    ensures |f| == 16
  {
    [SECTION_HEADER, SIGNATURE, dataOffset, dataOffset + cbData, o.importVa, o.importSize, o.boundVa, o.boundSize,
     o.iatVa, o.iatSize, o.sizeOfImage, cbPrePE, o.clrFlags, 0, 0, 0]
  }

  function PlacesOf(pieces: seq<Piece>, nThunks: nat, nChars: nat, nTables: nat): Places
    requires |pieces| == 7
  {
    Places(pieces[2].at, pieces[3].at, pieces[4].at, pieces[6].at, nThunks, nChars, nTables)
  }

  function TableAddresses(pieces: seq<Piece>): Addresses
    requires |pieces| == 7
  {
    Addresses(pieces[2].va, pieces[3].va, pieces[4].va)
  }

  /** All seven pieces are filled: the header, the pre-PE data, the tables for the imports, the payloads,
      and zeros behind the last import descriptor. */
  ghost predicate Filled(b: seq<byte>, pieces: seq<Piece>, o: Originals, prePE: seq<byte>, data: seq<byte>,
      files: seq<ImportFile>)
    requires |pieces| == 7
  {
    var a, many := TableAddresses(pieces), ThunkCount(files) > 1;
    && pieces[0].va <= pieces[5].va
    && HasAt(b, pieces[0].at, Dwords(HeaderFields(o, pieces[5].va - pieces[0].va, |data|, |prePE|)))
    && HasAt(b, pieces[1].at, prePE) && HasAt(b, pieces[5].at, data)
    && HasAt(b, pieces[2].at, ThunkBytes(Lookup(a, files))) && HasAt(b, pieces[3].at, ThunkBytes(Bound(files)))
    && HasAt(b, pieces[4].at, Chars(files)) && HasAt(b, pieces[6].at, AllDescriptorBytes(Descriptors(a, many, files)))
    && HasAt(b, pieces[6].at + DESCRIPTOR * |files|, Zeros(DESCRIPTOR))
  }

  lemma SevenPieces(pieces: seq<Piece>, cbPrePE: nat, nThunks: nat, nChars: nat, cbData: nat, nTables: nat, va: nat,
      end: nat)
    requires LaidOut(pieces, Sizes(cbPrePE, nThunks, nChars, cbData, nTables), va, end)
    ensures |pieces| == 7 && InOrder(PlacesOf(pieces, nThunks, nChars, nTables), end)
    ensures pieces[0].at + SECTION_HEADER <= pieces[1].at && pieces[1].at + cbPrePE <= pieces[2].at
    ensures pieces[4].at + nChars <= pieces[5].at && pieces[5].at + cbData <= pieces[6].at
    ensures pieces[0].va <= pieces[5].va && pieces[0].at == 0 && pieces[1].at == SECTION_HEADER <= pieces[2].at
    ensures forall i :: 0 <= i < 7 ==> pieces[i].va == va + pieces[i].at
  {
    NothingTaken();
    var sizes := Sizes(cbPrePE, nThunks, nChars, cbData, nTables);
    assert sizes[..0] == [] && sizes[..1][..0] == [] && sizes[..1][0] == SECTION_HEADER;
    assert Taken(sizes[..1]) == QuadAlign(SECTION_HEADER);
  }

  lemma ZerosAt(b: seq<byte>, at: nat, n: nat)
    requires at + n <= |b| && forall j :: at <= j < at + n ==> b[j] == 0
    ensures HasAt(b, at, Zeros(n))
  {}

  /** The header, the pre-PE data and the payloads are stored; the places of the tables stay zero. */
  method StoreParts(buffer: array<byte>, ghost end: nat, p0: nat, header: seq<byte>, p1: nat, prePE: seq<byte>, p5: nat,
                    data: seq<byte>, ghost p: Places)
    requires InOrder(p, end) && end <= buffer.Length && forall j :: 0 <= j < end ==> buffer[j] == 0
    requires p0 + |header| <= p1 && p1 + |prePE| <= p.lookup && p.chars + p.size <= p5 && p5 + |data| <= p.imports
    modifies buffer
    ensures HasAt(buffer[..], p0, header) && HasAt(buffer[..], p1, prePE) && HasAt(buffer[..], p5, data)
    ensures forall j :: p.lookup <= j < p.chars + p.size ==> buffer[j] == 0
    ensures forall j :: p.imports <= j < end ==> buffer[j] == 0
  {
    hide HasAt, Overwrite;
    Store(buffer, p0, header);
    ghost var b0 := buffer[..];
    StoredThere(old(buffer[..]), p0, header);
    Store(buffer, p1, prePE);
    ghost var b1 := buffer[..];
    StoredThere(b0, p1, prePE);
    OverwriteKeeps(b0, p1, prePE, p0, header);
    Store(buffer, p5, data);
    StoredThere(b1, p5, data);
    OverwriteKeeps(b1, p5, data, p0, header);
    OverwriteKeeps(b1, p5, data, p1, prePE);
    forall j | p.lookup <= j < p.chars + p.size || p.imports <= j < end ensures buffer[j] == 0 {
      OverwriteAt(old(buffer[..]), p0, header, j);
      OverwriteAt(b0, p1, prePE, j);
      OverwriteAt(b1, p5, data, j);
      assert buffer[j] == buffer[..][j] && old(buffer[j]) == old(buffer[..])[j];
    }
  }

  lemma StoredThere(b: seq<byte>, at: nat, part: seq<byte>)
    requires at + |part| <= |b|
    ensures HasAt(Overwrite(b, at, part), at, part)
  {}

  lemma EmptyTables(b: seq<byte>, p: Places, end: nat)
    requires InOrder(p, end) && end <= |b|
    requires forall j :: p.lookup <= j < p.chars + p.size ==> b[j] == 0
    requires forall j :: p.imports <= j < end ==> b[j] == 0
    ensures Holding(b, b, p, Contents([], [], [], []))
  {
    ZerosAt(b, p.chars, p.size);
    ZerosAt(b, p.imports, DESCRIPTOR * p.tables);
    hide Zeros;
    assert ThunkBytes([]) == [] && AllDescriptorBytes([]) == [];
  }

  /** A part of what has stayed as it was at the start has stayed as well. */
  lemma Inherits(b: seq<byte>, start: seq<byte>, from: nat, to: nat, at: nat, part: seq<byte>)
    requires from <= to <= |start| && HasAt(b, from, start[from..to]) && HasAt(start, at, part)
    requires from <= at && at + |part| <= to
    ensures HasAt(b, at, part)
  {
    SliceOfSlice(start, from, to - from, at - from, at - from + |part|);
    var kept := start[from..to];
    assert kept == kept[..at - from] + part + kept[at - from + |part|..];
    HasPart(b, from, kept[..at - from], part, kept[at - from + |part|..]);
  }

  lemma TablesAreFilled(b: seq<byte>, start: seq<byte>, pieces: seq<Piece>, o: Originals, prePE: seq<byte>,
      data: seq<byte>,
                        files: seq<ImportFile>, p: Places)
    requires |pieces| == 7 && p == PlacesOf(pieces, ThunkCount(files), |Chars(files)|, |files| + 1)
    requires Holding(b, start, p, ContentsOf(TableAddresses(pieces), ThunkCount(files) > 1, files))
    requires pieces[0].va <= pieces[5].va
    requires var header := Dwords(HeaderFields(o, pieces[5].va - pieces[0].va, |data|, |prePE|));
      HasAt(start, pieces[0].at, header) && pieces[0].at + |header| <= p.lookup
    requires HasAt(start, pieces[1].at, prePE) && pieces[1].at + |prePE| <= p.lookup
    requires HasAt(start, pieces[5].at, data) && p.chars + p.size <= pieces[5].at && pieces[5].at + |data| <= p.imports
    ensures Filled(b, pieces, o, prePE, data, files)
  {
    hide HasAt, Lookup, Bound, Chars, Descriptors, ThunkCount, ThunkBytes, AllDescriptorBytes, Zeros, Dwords,
        HeaderFields;
    var header := Dwords(HeaderFields(o, pieces[5].va - pieces[0].va, |data|, |prePE|));
    ContentsAre(TableAddresses(pieces), ThunkCount(files) > 1, files);
    assert |start| == |b| && start[0..p.lookup] == start[..p.lookup];
    Inherits(b, start, 0, p.lookup, pieces[0].at, header);
    Inherits(b, start, 0, p.lookup, pieces[1].at, prePE);
    Inherits(b, start, p.chars + p.size, p.imports, pieces[5].at, data);
  }

  /** Storing the parts and filling the tables. */
  method FillSection(buffer: array<byte>, ghost end: nat, pieces: seq<Piece>, o: Originals, prePE: seq<byte>,
      data: seq<byte>,
                     files: seq<ImportFile>, nThunks: nat, nChars: nat, ghost va: nat) returns (ok: bool)
    requires nThunks == ThunkCount(files) && nChars == |Chars(files)| && end <= buffer.Length
    requires LaidOut(pieces, Sizes(|prePE|, nThunks, nChars, |data|, |files| + 1), va, end)
    requires forall j :: 0 <= j < end ==> buffer[j] == 0
    modifies buffer
    ensures ok && |pieces| == 7 && Filled(buffer[..], pieces, o, prePE, data, files)
  {
    hide LaidOut, Sizes, Holding, Filled, HasAt, Chars, ThunkCount, ContentsOf, HeaderFields, Dwords;
    SevenPieces(pieces, |prePE|, nThunks, nChars, |data|, |files| + 1, va, end);
    ghost var p := PlacesOf(pieces, nThunks, nChars, |files| + 1);
    var header := Dwords(HeaderFields(o, pieces[5].va - pieces[0].va, |data|, |prePE|));
    StoreParts(buffer, end, pieces[0].at, header, pieces[1].at, prePE, pieces[5].at, data, p);
    ghost var start := buffer[..];
    EmptyTables(start, p, end);
    var lookup := new Thunks(buffer, pieces[2].at, pieces[2].va, nThunks);
    var bound := new Thunks(buffer, pieces[3].at, pieces[3].va, nThunks);
    var chars := new CharTable(buffer, pieces[4].at, pieces[4].va, nChars);
    ok := EmitFiles(files, lookup, bound, chars, pieces[6].at, start, p);
    TablesAreFilled(buffer[..], start, pieces, o, prePE, data, files, p);
  }

  /** The .detour part of Write: count, size the buffer, lay out the pieces, fill them, finish.  No
      allocation fails as long as there is memory. */
  method WriteDetourSection(out: Output, files: seq<ImportFile>, o: Originals, prePE: seq<byte>, data: seq<byte>,
      granted: bool)
    returns (ok: bool, pieces: seq<Piece>)
    requires out.Valid() && Multiple(out.nextFileAddr, out.fileAlignment)
    requires |prePE| % 8 == 0 || out.fileAlignment % 8 == 0
    modifies out, out.buffer
    ensures out.Valid() && (granted ==> ok)
    ensures ok ==> out.virtSize <= out.buffer.Length && Align(out.virtSize, out.fileAlignment) <= out.buffer.Length
    ensures ok ==> LaidOut(pieces, Sizes(|prePE|, ThunkCount(files), |Chars(files)|, |data|, |files| + 1),
        old(out.nextVirtAddr), out.virtSize)
    ensures ok ==> |pieces| == 7 && Filled(out.buffer[..], pieces, o, prePE, data, files)
    ensures out.virtAddr == old(out.nextVirtAddr) && out.fileAddr == old(out.nextFileAddr)
    ensures ok ==> out.nextVirtAddr == Align(out.virtAddr + out.virtSize, out.sectionAlignment)
    ensures ok ==> out.nextFileAddr == out.fileAddr + Align(out.virtSize, out.fileAlignment)
  {
    hide Chars, ThunkCount, Multiple, Align, LaidOut, Filled, Sizes;
    var need, nTables, nThunks, nChars := CheckImportsNeeded(files);
    ok, pieces := LayOutSection(out, |prePE|, nThunks, nChars, |data|, nTables, granted);
    if !ok { return; }
    var filled := FillSection(out.buffer, out.virtSize, pieces, o, prePE, data, files, nThunks, nChars,
        out.nextVirtAddr);
    var finished := out.FinishSection(granted);
    ok := filled && finished;
  }
}
