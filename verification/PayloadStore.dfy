/** The payload store of an image, CImageData of app/hook-win32/src/image.cpp: records packed one after
    the other into a byte array, each a length, a reserved zero, a GUID and the data. */
module PayloadStore {
  import opened Basics

  const HEADER := 24

  datatype Record = Record(guid: seq<byte>, payload: seq<byte>) {
    /** cbBytes. */
    function Size(): nat { HEADER + |payload| }
  }

  // ---------------------------------------------------------------- bytes

  lemma DwordReadsBack(n: nat)
    requires n < DWORD
    ensures Value(LittleEndian(n, 4)) == n
  {
    WordSizes();
    ReadsBack(n, 4);
  }

  /** Align to a multiple of 8. */
  function QuadAlign(n: nat): (a: nat)
    ensures n <= a < n + 8 && a % 8 == 0
  {
    (n + 7) / 8 * 8
  }

  /** The data with zeros up to a multiple of 8. */
  function Padded(data: seq<byte>): (p: seq<byte>)
    ensures |p| == QuadAlign(|data|) && data <= p && forall j :: |data| <= j < |p| ==> p[j] == 0
  {
    data + Zeros(QuadAlign(|data|) - |data|)
  }

  // ---------------------------------------------------------------- layout

  predicate Good(r: Record) { |r.guid| == 16 && r.Size() < DWORD }
  predicate AllGood(recs: seq<Record>) { forall k :: 0 <= k < |recs| ==> Good(recs[k]) }

  function Encode(r: Record): (b: seq<byte>)
    requires Good(r)
    ensures |b| == r.Size()
  {
    LittleEndian(r.Size(), 4) + LittleEndian(0, 4) + r.guid + r.payload
  }

  function Layout(recs: seq<Record>): seq<byte>
    requires AllGood(recs)
  {
    if recs == [] then [] else Encode(recs[0]) + Layout(recs[1..])
  }

  /** Where the k-th record starts. */
  function Offset(recs: seq<Record>, k: nat): nat
    requires k <= |recs|
  {
    if k == 0 then 0 else recs[0].Size() + Offset(recs[1..], k - 1)
  }

  lemma {:induction false} OffsetNext(recs: seq<Record>, k: nat)
    requires k < |recs|
    ensures Offset(recs, k + 1) == Offset(recs, k) + recs[k].Size()
    decreases k
  {
    if k > 0 { OffsetNext(recs[1..], k - 1); }
  }

  lemma Halves(a: seq<byte>, b: seq<byte>, i: nat)
    requires i <= |b|
    ensures (a + b)[|a| + i..] == b[i..] && (a + b)[..|a| + i] == a + b[..i]
  {}

  lemma LayoutStep(recs: seq<Record>)
    requires AllGood(recs) && recs != []
    ensures Layout(recs) == Encode(recs[0]) + Layout(recs[1..])
  {}

  lemma NoLayout()
    ensures Layout([]) == []
  {}

  lemma OffsetStep(recs: seq<Record>, k: nat)
    requires k <= |recs|
    ensures Offset(recs, k) == if k == 0 then 0 else recs[0].Size() + Offset(recs[1..], k - 1)
  {}

  lemma {:induction false} LayoutSize(recs: seq<Record>)
    requires AllGood(recs)
    ensures |Layout(recs)| == Offset(recs, |recs|)
    decreases |recs|
  {
    hide Layout, Offset, Encode, Good;
    NoLayout();
    OffsetStep(recs, |recs|);
    if recs != [] {
      LayoutStep(recs);
      LayoutSize(recs[1..]);
    }
  }

  lemma RecordAtFirst(recs: seq<Record>)
    requires AllGood(recs)
    ensures Layout(recs)[0..] == Layout(recs[0..]) && Layout(recs)[..0] == Layout(recs[..0])
  {
    hide Layout;
    NoLayout();
    assert recs[0..] == recs && recs[..0] == [] && Layout(recs)[0..] == Layout(recs);
  }

  /** The records tile the bytes: record k occupies [Offset(k), Offset(k + 1)). */
  lemma {:induction false} RecordAt(recs: seq<Record>, k: nat)
    requires AllGood(recs) && k <= |recs|
    ensures |Layout(recs)| == Offset(recs, |recs|) && Offset(recs, k) <= |Layout(recs)|
    ensures Layout(recs)[Offset(recs, k)..] == Layout(recs[k..])
    ensures Layout(recs)[..Offset(recs, k)] == Layout(recs[..k])
    decreases |recs|
  {
    hide Layout, Offset, Encode, Good;
    LayoutSize(recs);
    OffsetStep(recs, k);
    if k == 0 {
      RecordAtFirst(recs);
    } else {
      var rest, front := recs[1..], recs[..k];
      RecordAt(rest, k - 1);
      LayoutStep(recs);
      LayoutStep(front);
      assert rest[k - 1..] == recs[k..] && front[1..] == rest[..k - 1];
      Halves(Encode(recs[0]), Layout(rest), Offset(rest, k - 1));
    }
  }

  lemma Assoc(a: seq<byte>, b: seq<byte>, c: seq<byte>)
    ensures a + (b + c) == (a + b) + c
  {}

  lemma {:induction false} LayoutAppends(a: seq<Record>, b: seq<Record>)
    requires AllGood(a) && AllGood(b)
    ensures AllGood(a + b) && Layout(a + b) == Layout(a) + Layout(b)
    decreases |a|
  {
    hide Layout, Encode, Good;
    NoLayout();
    if a == [] {
      assert a + b == b;
    } else {
      assert (a + b)[1..] == a[1..] + b;
      LayoutAppends(a[1..], b);
      LayoutStep(a + b);
      LayoutStep(a);
      Assoc(Encode(a[0]), Layout(a[1..]), Layout(b));
    }
  }

  /** The fields of a record in memory. */
  lemma EncodedFields(r: Record)
    requires Good(r)
    ensures var e := Encode(r); Value(e[0..4]) == r.Size() && e[8..HEADER] == r.guid && e[HEADER..] == r.payload
  {
    DwordReadsBack(r.Size());
    hide LittleEndian, Value;
    assert Encode(r)[0..4] == LittleEndian(r.Size(), 4);
  }

  lemma Part(bytes: seq<byte>, o: nat, e: seq<byte>, i: nat, j: nat)
    requires o <= |bytes| && e <= bytes[o..] && i <= j <= |e|
    ensures o + |e| <= |bytes| && bytes[o + i..o + j] == e[i..j]
  {
    assert bytes[o + i..o + j] == bytes[o..][i..j];
  }

  lemma FirstRecord(recs: seq<Record>)
    requires AllGood(recs) && recs != []
    ensures Encode(recs[0]) <= Layout(recs)
  {}

  /** The fields of the record that starts at Offset(k). */
  lemma RecordStarts(recs: seq<Record>, k: nat, bytes: seq<byte>)
    requires AllGood(recs) && k < |recs| && bytes == Layout(recs)
    ensures Offset(recs, k) + recs[k].Size() == Offset(recs, k + 1) <= |bytes|
    ensures var o, r := Offset(recs, k), recs[k];
      && Value(bytes[o..o + 4]) == r.Size() && bytes[o + 8..o + HEADER] == r.guid
      && bytes[o + HEADER..o + r.Size()] == r.payload
  {
    hide Encode, Offset, Value, Layout, Good;
    RecordAt(recs, k);
    OffsetNext(recs, k);
    var o, r, e := Offset(recs, k), recs[k], Encode(recs[k]);
    FirstRecord(recs[k..]);
    EncodedFields(r);
    Part(bytes, o, e, 0, 4);
    Part(bytes, o, e, 8, HEADER);
    Part(bytes, o, e, HEADER, |e|);
  }

  lemma AtTheEnd(recs: seq<Record>, k: nat)
    requires AllGood(recs) && k <= |recs|
    ensures Offset(recs, 0) == 0
    ensures Offset(recs, k) <= |Layout(recs)| && (Offset(recs, k) == |Layout(recs)| <==> k == |recs|)
  {
    RecordAt(recs, k);
    assert k < |recs| ==> recs[k..][0] == recs[k];
  }

  lemma ValueOf4(b: seq<byte>)
    requires |b| == 4
    ensures Value(b) == (b[0] as int) + 256 * ((b[1] as int) + 256 * ((b[2] as int) + 256 * (b[3] as int)))
  {
    var b1 := b[1..];
    var b2 := b1[1..];
    var b3 := b2[1..];
    assert Value(b3) == (b3[0] as int) + 256 * Value(b3[1..]) && b3[1..] == [];
  }

  // ---------------------------------------------------------------- the store as a list and as a map

  predicate Distinct(recs: seq<Record>) { forall j, k :: 0 <= j < k < |recs| ==> recs[j].guid != recs[k].guid }

  /** The first record with this GUID, or |recs|. */
  function IndexOf(recs: seq<Record>, guid: seq<byte>): (k: nat)
    ensures k <= |recs| && (k < |recs| ==> recs[k].guid == guid)
    ensures forall j :: 0 <= j < k ==> recs[j].guid != guid
  {
    if recs == [] || recs[0].guid == guid then 0 else 1 + IndexOf(recs[1..], guid)
  }

  lemma IndexIs(recs: seq<Record>, guid: seq<byte>, k: nat)
    requires k <= |recs| && (k < |recs| ==> recs[k].guid == guid) && forall j :: 0 <= j < k ==> recs[j].guid != guid
    ensures IndexOf(recs, guid) == k
  {}

  function Without(recs: seq<Record>, guid: seq<byte>): seq<Record> {
    var k := IndexOf(recs, guid);
    if k < |recs| then recs[..k] + recs[k + 1..] else recs
  }

  function With(recs: seq<Record>, guid: seq<byte>, data: seq<byte>): seq<Record> {
    Without(recs, guid) + [Record(guid, Padded(data))]
  }

  lemma LayoutWithout(recs: seq<Record>, k: nat)
    requires AllGood(recs) && k < |recs|
    ensures AllGood(recs[..k] + recs[k + 1..])
    ensures Offset(recs, k) <= Offset(recs, k + 1) <= |Layout(recs)|
    ensures Layout(recs[..k] + recs[k + 1..]) == Layout(recs)[..Offset(recs, k)] + Layout(recs)[Offset(recs, k + 1)..]
  {
    OffsetNext(recs, k);
    RecordAt(recs, k);
    RecordAt(recs, k + 1);
    LayoutAppends(recs[..k], recs[k + 1..]);
  }

  lemma {:induction false} OffsetStays(recs: seq<Record>, r: Record, k: nat)
    requires k <= |recs|
    ensures Offset(recs + [r], k) == Offset(recs, k)
    decreases k
  {
    if k > 0 {
      assert (recs + [r])[1..] == recs[1..] + [r];
      OffsetStays(recs[1..], r, k - 1);
    }
  }

  lemma LayoutWithOneMore(recs: seq<Record>, r: Record)
    requires AllGood(recs) && Good(r)
    ensures AllGood(recs + [r]) && Layout(recs + [r]) == Layout(recs) + Encode(r)
    ensures Offset(recs + [r], |recs|) == Offset(recs, |recs|)
  {
    hide Layout, Encode, Offset, Good;
    LayoutAppends(recs, [r]);
    LayoutStep([r]);
    NoLayout();
    assert [r][1..] == [] && Encode(r) + [] == Encode(r);
    OffsetStays(recs, r, |recs|);
  }

  /** The size of the store after Set. */
  function SizeWith(recs: seq<Record>, guid: seq<byte>, payload: seq<byte>): nat {
    Total(Without(recs, guid)) + QuadAlign(|payload|) + HEADER
  }

  function Total(recs: seq<Record>): nat { Offset(recs, |recs|) }

  /** After Without no record has the GUID, the others are as before. */
  lemma WithoutIsRid(recs: seq<Record>, guid: seq<byte>)
    requires Distinct(recs)
    ensures Distinct(Without(recs, guid))
    ensures forall k :: 0 <= k < |Without(recs, guid)| ==> Without(recs, guid)[k].guid != guid
    ensures forall payload :: Distinct(Without(recs, guid) + [Record(guid, payload)])
  {}

  // ---------------------------------------------------------------- the store

  class ImageData {
    var data: array<byte>
    var cbData: nat
    var cbAlloc: nat          // 0 while the bytes belong to the image
    ghost var recs: seq<Record>

    ghost predicate Valid()
      reads this, data
    {
      && cbData <= data.Length && cbData < DWORD && cbAlloc <= data.Length
      && AllGood(recs) && Distinct(recs) && data[..cbData] == Layout(recs)
    }

    constructor ()
      ensures Valid() && recs == [] && fresh(data)
    {
      data := new byte[0];
      cbData, cbAlloc, recs := 0, 0, [];
    }

    /** On the bytes of a section of an image. */
    constructor Attach(bytes: array<byte>, ghost recs: seq<Record>)
      requires bytes.Length < DWORD && AllGood(recs) && Distinct(recs) && bytes[..] == Layout(recs)
      ensures Valid() && this.recs == recs && data == bytes
    {
      data := bytes;
      cbData, cbAlloc := bytes.Length, 0;
      this.recs := recs;
      assert bytes[..bytes.Length] == bytes[..];
    }

    /** A DWORD read from the array. */
    method ReadDword(at: nat) returns (n: nat)
      requires at + 4 <= data.Length
      ensures n == Value(data[at..at + 4])
    {
      var b := data[at..at + 4];
      n := (b[0] as int) + 256 * ((b[1] as int) + 256 * ((b[2] as int) + 256 * (b[3] as int)));
      ValueOf4(b);
    }

    /** Find: where the data of the record with this GUID starts, and its length. */
    method Find(guid: seq<byte>) returns (found: bool, at: nat, cb: nat)
      requires Valid() && |guid| == 16
      ensures found <==> IndexOf(recs, guid) < |recs|
      ensures found ==> at == Offset(recs, IndexOf(recs, guid)) + HEADER && cb == |recs[IndexOf(recs, guid)].payload|
      ensures found ==> at + cb <= cbData && data[at..at + cb] == recs[IndexOf(recs, guid)].payload
    {
      hide Layout, Offset, Value, AllGood, Distinct, IndexOf;
      AtTheEnd(recs, 0);
      var nOffset := 0;
      ghost var k := 0;
      while nOffset < cbData
        invariant k <= |recs| && nOffset == Offset(recs, k)
        invariant forall j :: 0 <= j < k ==> recs[j].guid != guid
        decreases cbData - nOffset
      {
        AtTheEnd(recs, k);
        FieldsAt(k);
        var cbBytes := ReadDword(nOffset);
        if cbBytes > cbData { break; }
        if cbBytes >= HEADER && data[nOffset + 8..nOffset + HEADER] == guid {
          IndexIs(recs, guid, k);
          return true, nOffset + HEADER, cbBytes - HEADER;
        }
        nOffset := nOffset + cbBytes;
        k := k + 1;
      }
      AtTheEnd(recs, k);
      IndexIs(recs, guid, k);
      return false, 0, 0;
    }

    /** The fields of the k-th record in the array. */
    lemma FieldsAt(k: nat)
      requires Valid() && k < |recs|
      ensures Offset(recs, k) + recs[k].Size() == Offset(recs, k + 1) <= cbData
      ensures var o, r := Offset(recs, k), recs[k];
        && Value(data[o..o + 4]) == r.Size() && data[o + 8..o + HEADER] == r.guid
            && data[o + HEADER..o + r.Size()] == r.payload
    {
      hide Layout, Offset, Value, AllGood, Distinct;
      var bytes := data[..cbData];
      RecordStarts(recs, k, bytes);
      var o := Offset(recs, k);
      assert bytes[o..o + 4] == data[o..o + 4] && bytes[o + 8..o + HEADER] == data[o + 8..o + HEADER];
      assert bytes[o + HEADER..o + recs[k].Size()] == data[o + HEADER..o + recs[k].Size()];
    }

    /** MoveMemory over [start, start + cb). */
    method CutOut(start: nat, cb: nat)
      requires start + cb <= cbData <= data.Length
      modifies this`cbData, data
      ensures cbData == old(cbData) - cb
      ensures data[..cbData] == old(data[..cbData])[..start] + old(data[..cbData])[start + cb..]
    {
      forall j | 0 <= j < cbData - (start + cb) { data[start + j] := data[start + cb + j]; }
      cbData := cbData - cb;
    }

    /** CopyMemory to the end of the data. */
    method PutAtEnd(b: seq<byte>)
      requires cbData + |b| <= data.Length
      modifies this`cbData, data
      ensures cbData == old(cbData) + |b| && data[..cbData] == old(data[..cbData]) + b
    {
      forall j | 0 <= j < |b| { data[cbData + j] := b[j]; }
      cbData := cbData + |b|;
    }

    /** Delete: the records behind the one that is found move down over it. */
    method Delete(guid: seq<byte>) returns (ok: bool)
      requires Valid() && |guid| == 16
      modifies this`cbData, this`recs, data
      ensures Valid() && recs == Without(old(recs), guid)
      ensures ok <==> IndexOf(old(recs), guid) < |old(recs)|
      ensures cbData <= old(cbData)
    {
      hide Layout, Offset;
      var found, at, cb := Find(guid);
      if !found { return false; }
      assert Without(recs, guid) == recs[..IndexOf(recs, guid)] + recs[IndexOf(recs, guid) + 1..];
      ghost var k := IndexOf(recs, guid);
      ghost var bytes := data[..cbData];
      RecordStarts(recs, k, bytes);
      LayoutWithout(recs, k);
      WithoutIsRid(recs, guid);
      hide Without, Distinct;
      CutOut(at - HEADER, cb + HEADER);
      recs := Without(recs, guid);
      return true;
    }

    /** SizeTo: keeps the contents; false when the memory is not granted. */
    method SizeTo(cb: nat, granted: bool) returns (ok: bool)
      requires Valid() && cbData <= cb
      modifies this`data, this`cbAlloc
      ensures ok <==> cb <= old(cbAlloc) || granted
      ensures ok ==> cb <= data.Length
      ensures Valid() && (data == old(data) || fresh(data))
    {
      if cb <= cbAlloc { return true; }
      if !granted { return false; }
      var bigger := new byte[cb];
      forall j | 0 <= j < cbData { bigger[j] := data[j]; }
      assert bigger[..cbData] == data[..cbData];
      data, cbAlloc := bigger, cb;
      return true;
    }

    /** Set: replaces the record with this GUID by one at the end.  When the memory is not granted the
        old record is gone all the same. */
    method Set(guid: seq<byte>, payload: seq<byte>, granted: bool) returns (ok: bool, at: nat)
      requires Valid() && |guid| == 16 && SizeWith(recs, guid, payload) < DWORD
      modifies this, data
      ensures Valid() && (data == old(data) || fresh(data))
      ensures recs == if ok then With(old(recs), guid, payload) else Without(old(recs), guid)
      ensures ok <==> granted || SizeWith(old(recs), guid, payload) <= old(cbAlloc)
      ensures ok ==> at == Offset(recs, |recs| - 1) + HEADER
    {
      hide Layout, Offset, Without, Distinct;
      var deleted := Delete(guid);
      WithoutIsRid(old(recs), guid);
      AtTheEnd(recs, |recs|);
      var cbPadded := QuadAlign(|payload|);
      ok := SizeTo(cbData + cbPadded + HEADER, granted);
      if !ok { return false, 0; }
      ghost var r := Record(guid, Padded(payload));
      assert Encode(r) == LittleEndian(cbPadded + HEADER, 4) + LittleEndian(0, 4) + guid + Padded(payload);
      at := cbData + HEADER;
      LayoutWithOneMore(recs, r);
      AtTheEnd(recs, |recs|);
      hide AllGood, Encode, Distinct, Padded;
      PutAtEnd(LittleEndian(cbPadded + HEADER, 4) + LittleEndian(0, 4) + guid + Padded(payload));
      recs := recs + [r];
    }

    method Purge()
      requires Valid()
      modifies this`cbData, this`recs
      ensures Valid() && recs == [] && cbData == 0
    {
      cbData, recs := 0, [];
    }

    /** Enumerate, with the iterator before the k-th record. */
    method Enumerate(position: nat, ghost k: nat) returns (ok: bool, guid: seq<byte>, at: nat, cb: nat, next: nat)
      requires Valid() && k <= |recs| && position == Offset(recs, k)
      ensures (ok <==> k < |recs|) && (!ok ==> next == position)
      ensures ok ==> next == Offset(recs, k + 1) && guid == recs[k].guid
      ensures ok ==> at + cb <= cbData && data[at..at + cb] == recs[k].payload
    {
      hide Layout, Offset, Value, AllGood, Distinct;
      AtTheEnd(recs, k);
      if k < |recs| { FieldsAt(k); }
      if cbData < position + HEADER { return false, [], 0, 0, position; }
      var cbBytes := ReadDword(position);
      return true, data[position + 8..position + HEADER], position + HEADER, cbBytes - HEADER, position + cbBytes;
    }

    /** Enumerating from 0 visits every record once, in order. */
    method EnumerateAll() returns (all: seq<Record>)
      requires Valid()
      ensures all == recs
    {
      hide Layout, Offset;
      var ok, position := true, 0;
      all := [];
      AtTheEnd(recs, 0);
      while ok
        invariant all <= recs && position == Offset(recs, |all|) && (!ok ==> all == recs)
        decreases |recs| - |all|, ok
      {
        var guid, at, cb;
        ok, guid, at, cb, position := Enumerate(position, |all|);
        if ok { all := all + [Record(guid, data[at..at + cb])]; }
      }
    }
  }

  // ---------------------------------------------------------------- every run refines a map

  datatype Op = SetTo(guid: seq<byte>, data: seq<byte>) | Remove(guid: seq<byte>) | Clear

  function Apply(recs: seq<Record>, op: Op): seq<Record> {
    match op
    case SetTo(guid, data) => With(recs, guid, data)
    case Remove(guid) => Without(recs, guid)
    case Clear => []
  }

  function ApplyAll(recs: seq<Record>, ops: seq<Op>): seq<Record>
    decreases |ops|
  {
    if ops == [] then recs else ApplyAll(Apply(recs, ops[0]), ops[1..])
  }

  type Payloads = map<seq<byte>, seq<byte>>

  function OnMap(m: Payloads, op: Op): Payloads {
    match op
    case SetTo(guid, data) => m[guid := Padded(data)]
    case Remove(guid) => m - {guid}
    case Clear => map[]
  }

  function OnMapAll(m: Payloads, ops: seq<Op>): Payloads
    decreases |ops|
  {
    if ops == [] then m else OnMapAll(OnMap(m, ops[0]), ops[1..])
  }

  /** What Find answers for every GUID. */
  function AsMap(recs: seq<Record>): Payloads {
    map k | 0 <= k < |recs| && IndexOf(recs, recs[k].guid) == k :: recs[k].guid := recs[k].payload
  }

  lemma AsMapIsFind(recs: seq<Record>, guid: seq<byte>)
    ensures guid in AsMap(recs) <==> IndexOf(recs, guid) < |recs|
    ensures guid in AsMap(recs) ==> AsMap(recs)[guid] == recs[IndexOf(recs, guid)].payload
  {}

  lemma DistinctIndex(recs: seq<Record>, k: nat)
    requires Distinct(recs) && k < |recs|
    ensures IndexOf(recs, recs[k].guid) == k
  {
    IndexIs(recs, recs[k].guid, k);
  }

  /** A record is in the store exactly when the map says so. */
  lemma MapOfDistinct(recs: seq<Record>, guid: seq<byte>, payload: seq<byte>)
    requires Distinct(recs)
    ensures Record(guid, payload) in recs <==> guid in AsMap(recs) && AsMap(recs)[guid] == payload
  {
    AsMapIsFind(recs, guid);
    if Record(guid, payload) in recs {
      var k :| 0 <= k < |recs| && recs[k] == Record(guid, payload);
      DistinctIndex(recs, k);
    }
  }

  lemma {:induction false} SameMap(recs: seq<Record>, m: Payloads)
    requires Distinct(recs)
    requires forall guid, payload :: Record(guid, payload) in recs <==> guid in m && m[guid] == payload
    ensures AsMap(recs) == m
  {
    forall guid ensures guid in AsMap(recs) <==> guid in m {
      if guid in m { MapOfDistinct(recs, guid, m[guid]); }
      if guid in AsMap(recs) {
        MapOfDistinct(recs, guid, AsMap(recs)[guid]);
        assert Record(guid, AsMap(recs)[guid]) in recs;
      }
    }
    forall guid | guid in m ensures AsMap(recs)[guid] == m[guid] { MapOfDistinct(recs, guid, m[guid]); }
  }

  /** The records of the other GUIDs, in order. */
  function Others(recs: seq<Record>, guid: seq<byte>): seq<Record> {
    if recs == [] then []
    else (if recs[0].guid == guid then [] else [recs[0]]) + Others(recs[1..], guid)
  }

  lemma {:induction false} NoOthersGone(recs: seq<Record>, guid: seq<byte>)
    requires forall k :: 0 <= k < |recs| ==> recs[k].guid != guid
    ensures Others(recs, guid) == recs
    decreases |recs|
  {
    if recs != [] { NoOthersGone(recs[1..], guid); }
  }

  lemma WithoutCons(recs: seq<Record>, guid: seq<byte>)
    requires recs != []
    ensures Without(recs, guid) == if recs[0].guid == guid then recs[1..] else [recs[0]] + Without(recs[1..], guid)
  {
    var k := IndexOf(recs[1..], guid);
    if recs[0].guid != guid && k < |recs| - 1 { assert recs[..k + 1] == [recs[0]] + recs[1..][..k]; }
  }

  /** Removing one GUID leaves exactly the others, in their order. */
  lemma {:induction false} WithoutKeepsOrder(recs: seq<Record>, guid: seq<byte>)
    requires Distinct(recs)
    ensures Without(recs, guid) == Others(recs, guid)
    decreases |recs|
  {
    hide Without, IndexOf;
    if recs == [] {
      NothingWithout(guid);
    } else {
      WithoutCons(recs, guid);
      if recs[0].guid == guid { NoOthersGone(recs[1..], guid); } else { WithoutKeepsOrder(recs[1..], guid); }
    }
  }

  lemma NothingWithout(guid: seq<byte>)
    ensures Without([], guid) == []
  {}

  lemma {:induction false} InOthers(recs: seq<Record>, guid: seq<byte>, r: Record)
    ensures r in Others(recs, guid) <==> r in recs && r.guid != guid
    decreases |recs|
  {
    if recs != [] {
      InOthers(recs[1..], guid, r);
      assert r in recs <==> r == recs[0] || r in recs[1..];
    }
  }

  /** One operation on the records is the same operation on the map. */
  lemma OpRefinesMap(recs: seq<Record>, op: Op)
    requires Distinct(recs)
    ensures Distinct(Apply(recs, op)) && AsMap(Apply(recs, op)) == OnMap(AsMap(recs), op)
  {
    hide AsMap, Padded, Without;
    var after, m := Apply(recs, op), OnMap(AsMap(recs), op);
    if !op.Clear? { WithoutIsRid(recs, op.guid); WithoutKeepsOrder(recs, op.guid); }
    forall guid, payload ensures Record(guid, payload) in after <==> guid in m && m[guid] == payload {
      MapOfDistinct(recs, guid, payload);
      if !op.Clear? { InOthers(recs, op.guid, Record(guid, payload)); }
    }
    SameMap(after, m);
  }

  /** Over every sequence of operations the store is the map. */
  lemma {:induction false} RunRefinesMap(recs: seq<Record>, ops: seq<Op>)
    requires Distinct(recs)
    ensures Distinct(ApplyAll(recs, ops)) && AsMap(ApplyAll(recs, ops)) == OnMapAll(AsMap(recs), ops)
    decreases |ops|
  {
    hide AsMap, Distinct, Apply, OnMap;
    if ops != [] {
      OpRefinesMap(recs, ops[0]);
      RunRefinesMap(Apply(recs, ops[0]), ops[1..]);
    }
  }
}
