/** Trampoline memory of app/hook-win32/src/detours.cpp: regions of 64 KB, cut into trampolines of 96
    bytes, with the free ones of a region chained through their pbRemain fields. */
module DetourRegions {
  import opened DetourWindow

  const REGION_SIZE := 0x10000
  const TRAMPOLINES_PER_REGION := REGION_SIZE / TRAMPOLINE - 1
  const NULL := 0
  const FILLED := 0xcccc_cccc_cccc_cccc   // pbRemain after memset(pTrampoline, 0xcc, ...)
  const USER_SPACE := 0x8000_0000_0000

  /** A region in memory: its address, the head of its free list, and the pbRemain of its trampolines. */
  datatype Region = Region(base: nat, pFree: nat, remain: map<nat, nat>)

  /** &pTrampoline[i]. */
  function Slot(base: nat, i: nat): nat { base + TRAMPOLINE * (1 + i) }

  predicate IsTrampoline(base: nat, a: nat) { exists i: nat :: i < TRAMPOLINES_PER_REGION && a == Slot(base, i) }

  /** The first two trampolines of a region are never handed out. */
  predicate Usable(base: nat, a: nat) { exists i: nat :: 2 <= i < TRAMPOLINES_PER_REGION && a == Slot(base, i) }

  predicate Inside(base: nat, a: nat) { base <= a < base + REGION_SIZE }

  /** A region as VirtualAlloc gives it. */
  predicate GoodBase(base: nat) { 0 < base < USER_SPACE && base % REGION_SIZE == 0 }

  function RegionOf(a: nat): nat { a - a % REGION_SIZE }

  lemma SlotIsInside(base: nat, a: nat)
    requires GoodBase(base) && IsTrampoline(base, a)
    ensures Inside(base, a) && RegionOf(a) == base && a != NULL
  {
    var i: nat :| i < TRAMPOLINES_PER_REGION && a == Slot(base, i);
    var d := TRAMPOLINE * (1 + i);
    assert a == base + d && 0 < d < REGION_SIZE;
    Remainder(base, d);
  }

  lemma Remainder(base: nat, d: nat)
    requires base % REGION_SIZE == 0 && d < REGION_SIZE
    ensures (base + d) % REGION_SIZE == d
  {}

  lemma UsableIsTrampoline(base: nat, a: nat)
    requires Usable(base, a)
    ensures IsTrampoline(base, a)
  {}

  // ---------------------------------------------------------------- one region

  predicate Distinct(s: seq<nat>) { forall i, j :: 0 <= i < j < |s| ==> s[i] != s[j] }

  function Next(free: seq<nat>, k: nat): nat { if k < |free| then free[k] else NULL }

  /** The free list that starts at pFree is `free`: it ends in NULL and repeats nothing. */
  ghost predicate Linked(r: Region, free: seq<nat>) {
    && r.pFree == Next(free, 0) && Distinct(free)
    && forall k :: 0 <= k < |free| ==> free[k] in r.remain && r.remain[free[k]] == Next(free, k + 1)
  }

  /** Of the usable trampolines exactly those not on the free list are in use. */
  ghost predicate Shared(r: Region, free: seq<nat>, used: set<nat>) {
    && (forall k :: 0 <= k < |free| ==> Usable(r.base, free[k]))
    && (forall a :: Usable(r.base, a) ==> (a in used <==> a !in free))
  }

  /** pbRemain of a trampoline in use points out of the region, of any other not. */
  ghost predicate Marked(r: Region, used: set<nat>) {
    && (forall a :: IsTrampoline(r.base, a) ==> a in r.remain)
    && (forall a :: Usable(r.base, a) && a in used ==> r.remain[a] != NULL && !Inside(r.base, r.remain[a]))
    && (forall a :: IsTrampoline(r.base, a) && !Usable(r.base, a) ==> r.remain[a] == NULL)
  }

  ghost predicate Holds(r: Region, free: seq<nat>, used: set<nat>) {
    GoodBase(r.base) && Linked(r, free) && Shared(r, free, used) && Marked(r, used)
  }

  /** found_region: takes the head of the free list. */
  function Pop(r: Region): Region
    requires r.pFree in r.remain
  {
    r.(pFree := r.remain[r.pFree], remain := r.remain[r.pFree := FILLED])
  }

  lemma PopHolds(r: Region, free: seq<nat>, used: set<nat>)
    requires Holds(r, free, used) && r.pFree != NULL
    ensures free != [] && r.pFree == free[0] && Usable(r.base, free[0]) && free[0] !in used && r.pFree in r.remain
    ensures Holds(Pop(r), free[1..], used + {free[0]})
  {}

  /** detour_free_trampoline. */
  function Push(r: Region, slot: nat): Region { r.(pFree := slot, remain := r.remain[slot := r.pFree]) }

  lemma PushHolds(r: Region, free: seq<nat>, used: set<nat>, slot: nat)
    requires Holds(r, free, used) && Usable(r.base, slot) && slot in used
    ensures Holds(Push(r, slot), [slot] + free, used - {slot})
  {}

  /** What happens to trampolines of other regions does not matter. */
  lemma OnlyOwnMatter(r: Region, free: seq<nat>, used: set<nat>, used': set<nat>)
    requires Holds(r, free, used) && forall a :: Usable(r.base, a) ==> (a in used <==> a in used')
    ensures Holds(r, free, used')
  {}

  lemma RegionsApart(base: nat, base': nat, a: nat)
    requires GoodBase(base) && GoodBase(base') && Usable(base, a) && Usable(base', a)
    ensures base == base'
  {
    UsableIsTrampoline(base, a);
    UsableIsTrampoline(base', a);
    SlotIsInside(base, a);
    SlotIsInside(base', a);
  }

  // ---------------------------------------------------------------- how many

  function UsableFrom(base: nat, i: nat): set<nat>
    requires 2 <= i <= TRAMPOLINES_PER_REGION
    decreases TRAMPOLINES_PER_REGION - i
  {
    if i == TRAMPOLINES_PER_REGION then {} else {Slot(base, i)} + UsableFrom(base, i + 1)
  }

  lemma {:induction false} UsableCount(base: nat, i: nat)
    requires 2 <= i <= TRAMPOLINES_PER_REGION
    ensures |UsableFrom(base, i)| == TRAMPOLINES_PER_REGION - i
    ensures forall a :: a in UsableFrom(base, i) <==>
        exists j: nat :: i <= j < TRAMPOLINES_PER_REGION && a == Slot(base, j)
    decreases TRAMPOLINES_PER_REGION - i
  {
    if i < TRAMPOLINES_PER_REGION {
      UsableCount(base, i + 1);
      var s, rest := Slot(base, i), UsableFrom(base, i + 1);
      assert s !in rest;
      assert |{s} + rest| == 1 + |rest|;
      forall a ensures a in UsableFrom(base, i) <==>
          exists j: nat :: i <= j < TRAMPOLINES_PER_REGION && a == Slot(base, j) {
        if a in rest {
          var j: nat :| i + 1 <= j < TRAMPOLINES_PER_REGION && a == Slot(base, j);
        }
      }
    }
  }

  function Elements(s: seq<nat>): set<nat> { if s == [] then {} else {s[0]} + Elements(s[1..]) }

  lemma {:induction false} DistinctCount(s: seq<nat>)
    ensures forall a :: a in Elements(s) <==> a in s
    ensures Distinct(s) ==> |Elements(s)| == |s|
    decreases |s|
  {
    if s != [] { DistinctCount(s[1..]); }
  }

  function InUse(base: nat, used: set<nat>): set<nat>
    requires TRAMPOLINES_PER_REGION >= 2
  {
    set a | a in used && a in UsableFrom(base, 2)
  }

  /** Free and used trampolines of a region always add up to the same number. */
  lemma Conserved(r: Region, free: seq<nat>, used: set<nat>)
    requires Holds(r, free, used)
    ensures |free| + |InUse(r.base, used)| == TRAMPOLINES_PER_REGION - 2 == 679
  {
    UsableCount(r.base, 2);
    DistinctCount(free);
    FreeOrUsed(r, free, used);
    hide *;
    assert |Elements(free) + InUse(r.base, used)| == |Elements(free)| + |InUse(r.base, used)|;
  }

  lemma FreeOrUsed(r: Region, free: seq<nat>, used: set<nat>)
    requires Shared(r, free, used)
    ensures Elements(free) + InUse(r.base, used) == UsableFrom(r.base, 2) && Elements(free) * InUse(r.base, used) == {}
  {
    UsableCount(r.base, 2);
    DistinctCount(free);
    hide Elements, UsableFrom, Slot;
    var all := UsableFrom(r.base, 2);
    forall a ensures (a in all <==> a in Elements(free) || a in InUse(r.base, used))
        && !(a in Elements(free) && a in InUse(r.base, used)) {
      assert a in all <==> Usable(r.base, a);
    }
  }

  // ---------------------------------------------------------------- a new region

  ghost predicate NoneUsed(base: nat, used: set<nat>) { forall a :: Usable(base, a) ==> a !in used }

  /** The trampolines from the i-th on, in order. */
  function SlotsFrom(base: nat, i: nat): seq<nat>
    requires i <= TRAMPOLINES_PER_REGION
    decreases TRAMPOLINES_PER_REGION - i
  {
    if i == TRAMPOLINES_PER_REGION then [] else [Slot(base, i)] + SlotsFrom(base, i + 1)
  }

  lemma {:induction false} SlotsFromHas(base: nat, i: nat)
    requires i <= TRAMPOLINES_PER_REGION
    ensures forall a :: a in SlotsFrom(base, i) <==>
        exists j: nat :: i <= j < TRAMPOLINES_PER_REGION && a == Slot(base, j)
    ensures Distinct(SlotsFrom(base, i))
    decreases TRAMPOLINES_PER_REGION - i
  {
    if i < TRAMPOLINES_PER_REGION {
      SlotsFromHas(base, i + 1);
      assert Slot(base, i) !in SlotsFrom(base, i + 1);
      forall a ensures a in SlotsFrom(base, i) <==>
          exists j: nat :: i <= j < TRAMPOLINES_PER_REGION && a == Slot(base, j) {
        if a in SlotsFrom(base, i + 1) { var j: nat :| i + 1 <= j < TRAMPOLINES_PER_REGION && a == Slot(base, j); }
      }
    }
  }

  /** The trampolines from the i-th on are chained, the others are zero. */
  ghost predicate Building(r: Region, i: nat) {
    && i <= TRAMPOLINES_PER_REGION && Linked(r, SlotsFrom(r.base, i))
    && forall a :: IsTrampoline(r.base, a) ==> a in r.remain && (a !in SlotsFrom(r.base, i) ==> r.remain[a] == NULL)
  }

  lemma BuildingStep(r: Region, i: nat)
    requires Building(r, i) && i > 0
    ensures Building(Push(r, Slot(r.base, i - 1)), i - 1)
  {
    SlotsFromHas(r.base, i);
    SlotsFromHas(r.base, i - 1);
    var s, list := Slot(r.base, i - 1), SlotsFrom(r.base, i);
    assert SlotsFrom(r.base, i - 1) == [s] + list;
    hide SlotsFrom, Slot, IsTrampoline;
    assert s !in list;
  }

  lemma FirstSlot(base: nat)
    ensures SlotsFrom(base, 2) != [] && SlotsFrom(base, 2)[0] == Slot(base, 2) > 0
  {}

  lemma BuiltHolds(r: Region, used: set<nat>)
    requires Building(r, 2) && GoodBase(r.base) && NoneUsed(r.base, used)
    ensures Holds(r, SlotsFrom(r.base, 2), used) && r.pFree != NULL
  {
    hide SlotsFrom, Slot;
    SlotsFromHas(r.base, 2);
    FirstSlot(r.base);
    forall a ensures a in SlotsFrom(r.base, 2) <==> Usable(r.base, a) {}
  }

  method NewRegion(base: nat) returns (r: Region)
    requires GoodBase(base)
    ensures r.base == base && Building(r, 2) && r.pFree == Slot(base, 2)
  {
    r := Region(base, NULL, map i: nat | i < TRAMPOLINES_PER_REGION :: Slot(base, i) := NULL);
    for i := TRAMPOLINES_PER_REGION downto 2
      invariant r.base == base && Building(r, i) && (i < TRAMPOLINES_PER_REGION ==> r.pFree == Slot(base, i))
    {
      BuildingStep(r, i + 1);
      r := Push(r, Slot(base, i));
    }
  }

  // ---------------------------------------------------------------- an empty region

  predicate LooksFree(r: Region, a: nat)
    requires a in r.remain
  {
    r.remain[a] == NULL || Inside(r.base, r.remain[a])
  }

  /** detour_is_region_empty. */
  method IsRegionEmpty(r: Region) returns (empty: bool)
    requires forall i: nat :: i < TRAMPOLINES_PER_REGION ==> Slot(r.base, i) in r.remain
    ensures empty <==> forall i: nat :: i < TRAMPOLINES_PER_REGION ==> LooksFree(r, Slot(r.base, i))
  {
    for i := 0 to TRAMPOLINES_PER_REGION
      invariant forall j: nat :: j < i ==> LooksFree(r, Slot(r.base, j))
    {
      if !LooksFree(r, Slot(r.base, i)) { return false; }
    }
    return true;
  }

  /** What does not depend on the free list: trampolines in use do not look free, all others do. */
  ghost predicate Tidy(r: Region, used: set<nat>) {
    && GoodBase(r.base) && Marked(r, used) && (r.pFree == NULL || Inside(r.base, r.pFree))
    && forall a :: Usable(r.base, a) && a !in used ==> LooksFree(r, a)
  }

  lemma HoldsIsTidy(r: Region, free: seq<nat>, used: set<nat>)
    requires Holds(r, free, used)
    ensures Tidy(r, used)
  {
    forall k | 0 <= k < |free| ensures Inside(r.base, free[k]) {
      UsableIsTrampoline(r.base, free[k]);
      SlotIsInside(r.base, free[k]);
    }
    forall a | Usable(r.base, a) && a !in used ensures a in r.remain && LooksFree(r, a) {
      UsableIsTrampoline(r.base, a);
      var k :| 0 <= k < |free| && free[k] == a;
    }
  }

  lemma PushTidy(r: Region, used: set<nat>, slot: nat)
    requires Tidy(r, used) && Usable(r.base, slot)
    ensures Tidy(Push(r, slot), used - {slot})
  {
    hide Usable, IsTrampoline;
    UsableIsTrampoline(r.base, slot);
    SlotIsInside(r.base, slot);
  }

  /** A region looks empty exactly when none of its trampolines is in use. */
  lemma EmptyMeansUnused(r: Region, used: set<nat>)
    requires Tidy(r, used)
    ensures forall i: nat :: i < TRAMPOLINES_PER_REGION ==> Slot(r.base, i) in r.remain
    ensures (forall i: nat :: i < TRAMPOLINES_PER_REGION ==> LooksFree(r, Slot(r.base, i))) <==> NoneUsed(r.base, used)
  {
    forall i: nat | i < TRAMPOLINES_PER_REGION
      ensures Slot(r.base, i) in r.remain
      ensures LooksFree(r, Slot(r.base, i)) <==> !(Usable(r.base, Slot(r.base, i)) && Slot(r.base, i) in used)
    {
      assert IsTrampoline(r.base, Slot(r.base, i));
    }
    if forall i: nat :: i < TRAMPOLINES_PER_REGION ==> LooksFree(r, Slot(r.base, i)) {
      forall a | Usable(r.base, a) ensures a !in used {
        var i: nat :| 2 <= i < TRAMPOLINES_PER_REGION && a == Slot(r.base, i);
        assert LooksFree(r, Slot(r.base, i));
      }
    }
  }

  // ---------------------------------------------------------------- freeing a trampoline twice

  /** From pFree the links lead from one member of `knot` to another and never to NULL. */
  ghost predicate Closed(r: Region, knot: set<nat>) {
    NULL !in knot && r.pFree in knot && forall a :: a in knot ==> a in r.remain && r.remain[a] in knot
  }

  ghost predicate Knotted(r: Region) { exists knot :: Closed(r, knot) }

  ghost predicate HasList(r: Region) { exists list :: Linked(r, list) }

  lemma KnottedHasNone(r: Region)
    requires Knotted(r)
    ensures !HasList(r)
  {
    hide Knotted, Linked;
    forall list ensures !Linked(r, list) { KnottedIsNotLinked(r, list); }
  }

  lemma KnottedIsNotLinked(r: Region, list: seq<nat>)
    requires Knotted(r)
    ensures !Linked(r, list)
  {
    var knot :| Closed(r, knot);
    if Linked(r, list) { KnotHoldsList(r, list, knot, |list|); }
  }

  lemma {:induction false} KnotHoldsList(r: Region, list: seq<nat>, knot: set<nat>, k: nat)
    requires Closed(r, knot) && Linked(r, list) && k <= |list|
    ensures Next(list, k) in knot
    decreases k
  {
    if k > 0 {
      KnotHoldsList(r, list, knot, k - 1);
      assert Next(list, k - 1) == list[k - 1];
    }
  }

  /** A knot is never untied. */
  lemma KnotStays(r: Region, slot: nat)
    requires Knotted(r) && slot != NULL
    ensures Knotted(Push(r, slot))
  {
    var knot :| Closed(r, knot);
    assert Closed(Push(r, slot), knot + {slot});
  }

  /** Freeing a trampoline that is free ties a knot. */
  lemma FreedAgain(r: Region, free: seq<nat>, used: set<nat>, slot: nat)
    requires Holds(r, free, used) && Usable(r.base, slot) && slot !in used
    ensures Knotted(Push(r, slot))
  {
    var p :| 0 <= p < |free| && free[p] == slot;
    var knot := set k | 0 <= k <= p :: free[k];
    forall k | 0 <= k <= p ensures free[k] != NULL {
      UsableIsTrampoline(r.base, free[k]);
      SlotIsInside(r.base, free[k]);
    }
    assert r.pFree == free[0];
    forall a | a in knot ensures a in Push(r, slot).remain && Push(r, slot).remain[a] in knot {
      var k :| 0 <= k <= p && a == free[k];
      if k < p { assert r.remain[a] == free[k + 1]; }
    }
    assert Closed(Push(r, slot), knot);
  }

  function PushAll(r: Region, slots: seq<nat>): (r': Region)
    ensures r'.base == r.base
    decreases |slots|
  {
    if slots == [] then r else PushAll(Push(r, slots[0]), slots[1..])
  }

  lemma {:induction false} KnotStaysForAll(r: Region, slots: seq<nat>)
    requires Knotted(r) && NULL !in slots
    ensures Knotted(PushAll(r, slots))
    decreases |slots|
  {
    hide Knotted;
    if slots != [] {
      KnotStays(r, slots[0]);
      KnotStaysForAll(Push(r, slots[0]), slots[1..]);
    }
  }

  /** Freeing trampolines of a region leaves it with a free list exactly when all of them were in use
      and none is freed twice. */
  lemma {:induction false} FreesAreLinkedExactly(r: Region, free: seq<nat>, used: set<nat>, slots: seq<nat>)
    requires Holds(r, free, used) && forall k :: 0 <= k < |slots| ==> Usable(r.base, slots[k])
    ensures HasList(PushAll(r, slots)) <==> Distinct(slots) && forall k :: 0 <= k < |slots| ==> slots[k] in used
    decreases |slots|
  {
    hide Holds, HasList, Usable, Knotted, Distinct;
    if slots == [] {
      HoldsIsLinked(r, free, used);
      NothingTwice();
    } else if slots[0] in used {
      PushHolds(r, free, used, slots[0]);
      FreesAreLinkedExactly(Push(r, slots[0]), [slots[0]] + free, used - {slots[0]}, slots[1..]);
      DistinctCons(slots, used);
    } else {
      FreedAgain(r, free, used, slots[0]);
      NoneIsNull(r, free, used, slots[1..]);
      KnotStaysForAll(Push(r, slots[0]), slots[1..]);
      KnottedHasNone(PushAll(r, slots));
    }
  }

  lemma NothingTwice()
    ensures Distinct([])
  {}

  lemma DistinctCons(slots: seq<nat>, used: set<nat>)
    requires slots != [] && slots[0] in used
    ensures var rest := slots[1..];
      (Distinct(slots) && forall k :: 0 <= k < |slots| ==> slots[k] in used) <==>
      (Distinct(rest) && forall k :: 0 <= k < |rest| ==> rest[k] in used - {slots[0]})
  {
    var rest := slots[1..];
    assert forall k :: 0 < k < |slots| ==> slots[k] == rest[k - 1];
    assert forall k :: 0 <= k < |rest| ==> rest[k] == slots[k + 1];
    if Distinct(rest) && forall k :: 0 <= k < |rest| ==> rest[k] in used - {slots[0]} {
      forall k | 0 <= k < |slots| ensures slots[k] in used { if k > 0 { assert rest[k - 1] in used; } }
    }
    if Distinct(slots) && forall k :: 0 <= k < |slots| ==> slots[k] in used {
      forall k | 0 <= k < |rest| ensures rest[k] in used - {slots[0]} { assert slots[k + 1] in used; }
    }
  }

  lemma HoldsIsLinked(r: Region, free: seq<nat>, used: set<nat>)
    requires Holds(r, free, used)
    ensures HasList(r)
  {
    assert Linked(r, free);
  }

  lemma NoneIsNull(r: Region, free: seq<nat>, used: set<nat>, slots: seq<nat>)
    requires Holds(r, free, used) && forall k :: 0 <= k < |slots| ==> Usable(r.base, slots[k])
    ensures NULL !in slots
  {
    forall k | 0 <= k < |slots| ensures slots[k] != NULL {
      UsableIsTrampoline(r.base, slots[k]);
      SlotIsInside(r.base, slots[k]);
    }
  }

  // ---------------------------------------------------------------- the allocator

  function Bases(regions: seq<Region>): (b: seq<nat>)
    ensures |b| == |regions| && forall k :: 0 <= k < |b| ==> b[k] == regions[k].base
  {
    seq(|regions|, k requires 0 <= k < |regions| => regions[k].base)
  }

  predicate Fits(r: Region, w: Window) { r.pFree != NULL && w.Has(r.pFree) }

  predicate SomeFits(regions: seq<Region>, w: Window) { exists k :: 0 <= k < |regions| && Fits(regions[k], w) }

  /** The region that is asked first: the one used last, or the first of the list. */
  function Preferred(regions: seq<Region>, current: nat): nat
    { if current != NULL || regions == [] then current else regions[0].base }

  /** The k-th region is the preferred one, or the first of all that fit if that one does not. */
  predicate Chosen(regions: seq<Region>, preferred: nat, w: Window, k: nat) {
    && k < |regions| && Fits(regions[k], w)
    && (regions[k].base == preferred
        || ((forall j :: 0 <= j < k ==> !Fits(regions[j], w))
            && forall j :: 0 <= j < |regions| && regions[j].base == preferred ==> !Fits(regions[j], w)))
  }

  predicate HeadOfChosen(regions: seq<Region>, preferred: nat, w: Window, slot: nat) {
    exists k: nat :: k < |regions| && Chosen(regions, preferred, w, k) && regions[k].pFree == slot
  }

  /** A region whose free list is in order, or one that a second free has tied into a knot. */
  ghost predicate RegionOk(r: Region, free: seq<nat>, used: set<nat>, broken: set<nat>) {
    Tidy(r, used) && if r.base in broken then Knotted(r) else Holds(r, free, used)
  }

  ghost predicate Known(bases: seq<nat>, used: set<nat>) {
    forall a :: a in used ==> RegionOf(a) in bases && Usable(RegionOf(a), a)
  }

  lemma OnlyOne(regions: seq<Region>, k: nat)
    requires Distinct(Bases(regions)) && k < |regions|
    ensures forall j :: 0 <= j < |regions| && regions[j].base == regions[k].base ==> j == k
  {
    assert forall j :: 0 <= j < |regions| ==> Bases(regions)[j] == regions[j].base;
  }

  class Allocator {
    var regions: seq<Region>         // s_pRegions
    var current: nat                 // s_pRegion
    ghost var free: seq<seq<nat>>    // the free list of each region
    ghost var used: set<nat>
    ghost var broken: set<nat>       // the regions whose list is a knot

    /** What holds also after a trampoline has been freed twice. */
    ghost predicate Loose()
      reads this
    {
      && |free| == |regions| && Distinct(Bases(regions)) && Known(Bases(regions), used)
      && (forall k :: 0 <= k < |regions| ==> RegionOk(regions[k], free[k], used, broken))
      && (current != NULL ==> current in Bases(regions))
      && forall b :: b in broken ==> b in Bases(regions)
    }

    ghost predicate Valid()
      reads this
    {
      && |free| == |regions| && Distinct(Bases(regions)) && Known(Bases(regions), used)
      && (forall k :: 0 <= k < |regions| ==> Holds(regions[k], free[k], used))
      && (current != NULL ==> current in Bases(regions)) && broken == {}
    }

    lemma ValidIsLoose()
      ensures Valid() <==> Loose() && broken == {}
    {
      hide Holds, Tidy, Distinct, Known;
      forall k | 0 <= k < |regions| && Valid() ensures RegionOk(regions[k], free[k], used, broken) {
        HoldsIsTidy(regions[k], free[k], used);
      }
      if Loose() && broken == {} {
        forall k | 0 <= k < |regions| ensures Holds(regions[k], free[k], used) {
          assert RegionOk(regions[k], free[k], used, broken);
        }
      }
    }

    /** A region has a free list exactly when it is not broken. */
    lemma BrokenHasNoList(k: nat)
      requires Loose() && k < |regions|
      ensures HasList(regions[k]) <==> regions[k].base !in broken
    {
      hide Holds, Tidy, HasList, Knotted, Distinct, Known;
      assert RegionOk(regions[k], free[k], used, broken);
      if regions[k].base in broken {
        KnottedHasNone(regions[k]);
      } else {
        HoldsIsLinked(regions[k], free[k], used);
      }
    }

    constructor ()
      ensures Valid() && used == {} && regions == []
    {
      regions, current, free, used, broken := [], NULL, [], {}, {};
    }

    method Find(base: nat) returns (k: nat)
      requires base in Bases(regions)
      ensures k < |regions| && regions[k].base == base
    {
      k := 0;
      while regions[k].base != base
        invariant k < |regions| && forall j :: 0 <= j < k ==> regions[j].base != base
        decreases |regions| - k
      {
        k := k + 1;
      }
    }

    /** found_region. */
    method Take(k: nat) returns (slot: nat)
      requires Valid() && k < |regions| && regions[k].pFree != NULL
      modifies this`regions, this`free, this`used
      ensures Valid() && slot == old(regions[k].pFree) && slot !in old(used) && used == old(used) + {slot}
      ensures Bases(regions) == old(Bases(regions)) && Usable(RegionOf(slot), slot)
      ensures RegionOf(slot) == old(regions[k].base)
    {
      hide Holds, Usable, Known;
      PopHolds(regions[k], free[k], used);
      slot := regions[k].pFree;
      UsableIsTrampoline(regions[k].base, slot);
      SlotIsInside(regions[k].base, slot);
      KeepsOthers(regions, free, used, used + {slot}, k, slot);
      KnownMore(Bases(regions), used, slot, k);
      regions, free, used := regions[k := Pop(regions[k])], free[k := free[k][1..]], used + {slot};
      assert Bases(regions) == old(Bases(regions));
    }

    /** detour_free_trampoline.  A trampoline that is free already breaks the list of its region. */
    method Free(slot: nat)
      requires Loose() && RegionOf(slot) in Bases(regions) && Usable(RegionOf(slot), slot)
      modifies this`regions, this`free, this`used, this`broken
      ensures Loose() && used == old(used) - {slot} && Bases(regions) == old(Bases(regions))
      ensures broken == if slot in old(used) then old(broken) else old(broken) + {RegionOf(slot)}
    {
      hide RegionOk, Usable, Distinct;
      var k := Find(RegionOf(slot));
      ghost var used', broken' := used - {slot}, if slot in used then broken else broken + {RegionOf(slot)};
      PushOk(regions[k], free[k], used, broken, slot);
      OthersStayOk(regions, free, used, broken, k, slot);
      regions, free := regions[k := Push(regions[k], slot)], free[k := [slot] + free[k]];
      used, broken := used', broken';
      assert Bases(regions) == old(Bases(regions));
    }

    /** pTrampoline->pbRemain = remain, for a trampoline in use and an address outside its region. */
    method SetRemain(slot: nat, remain: nat)
      requires Valid() && slot in used && remain != NULL && !Inside(RegionOf(slot), remain)
      modifies this`regions
      ensures Valid() && Bases(regions) == old(Bases(regions))
    {
      var k := Find(RegionOf(slot));
      RemainHolds(regions[k], free[k], used, slot, remain);
      hide Holds;
      regions := regions[k := regions[k].(remain := regions[k].remain[slot := remain])];
      assert Bases(regions) == old(Bases(regions));
    }

    /** The preferred region, if there is one, and whether it has a trampoline in the window. */
    method AskPreferred(w: Window) returns (k: nat, fits: bool)
      requires Valid()
      modifies this`current
      ensures Valid()
      ensures fits ==>
          k < |regions| && current == regions[k].base && Chosen(regions, old(Preferred(regions, current)), w, k)
      ensures !fits ==> forall j :: 0 <= j < |regions| && regions[j].base == old(Preferred(regions, current)) ==>
          !Fits(regions[j], w)
    {
      hide Distinct, Known, Marked, Shared, Linked;
      k, fits := 0, false;
      if current == NULL && regions != [] {
        assert Holds(regions[0], free[0], used);
        current := regions[0].base;
        assert current == Bases(regions)[0];
      }
      if current != NULL {
        k := Find(current);
        fits := Fits(regions[k], w);
        OnlyOne(regions, k);
      }
    }

    /** detour_alloc_trampoline; `found` is what the search for free memory would find, NULL if nothing. */
    method Alloc(w: Window, found: nat) returns (slot: nat)
      requires Valid() && (found != NULL ==> GoodBase(found) && found !in Bases(regions))
      modifies this
      ensures Valid()
      ensures slot != NULL ==>
          w.Has(slot) && slot !in old(used) && used == old(used) + {slot} && Usable(RegionOf(slot), slot)
      ensures slot == NULL ==> used == old(used)
      ensures slot != NULL <==> old(SomeFits(regions, w)) || (found != NULL && w.Has(Slot(found, 2)))
      ensures slot != NULL ==>
          && current == RegionOf(slot)
          && if old(SomeFits(regions, w)) then old(HeadOfChosen(regions, Preferred(regions, current), w, slot))
             else slot == Slot(found, 2)
      ensures slot == NULL ==> current == found
      ensures Bases(regions)
          == (if found == NULL || old(SomeFits(regions, w)) then [] else [found]) + old(Bases(regions))
    {
      hide Holds, Distinct, Known, Usable;
      ghost var all, first := regions, Preferred(regions, current);
      var k, fits := AskPreferred(w);
      if fits {
        slot := Take(k);
        return;
      }
      k := 0;
      while k < |regions|
        invariant k <= |regions| && forall j :: 0 <= j < k ==> !Fits(regions[j], w)
      {
        if Fits(regions[k], w) {
          assert Chosen(all, first, w, k);
          current := regions[k].base;
          assert current == Bases(regions)[k];
          slot := Take(k);
          return;
        }
        k := k + 1;
      }
      current := NULL;
      if found == NULL { return NULL; }
      AddRegion(found);
      if !w.Has(regions[0].pFree) { return NULL; }
      slot := Take(0);
    }

    /** A region is put in front, all of its trampolines free. */
    method AddRegion(base: nat)
      requires Valid() && GoodBase(base) && base !in Bases(regions)
      modifies this`regions, this`free, this`current
      ensures Valid() && Bases(regions) == [base] + old(Bases(regions)) && current == base
      ensures |regions| > 0 && regions[1..] == old(regions) && regions[0].pFree == Slot(base, 2)
    {
      hide Holds, Building, Usable, SlotsFrom, GoodBase, NoneUsed;
      var r := NewRegion(base);
      NotYetUsed(this, base);
      BuiltHolds(r, used);
      regions, free, current := [r] + regions, [SlotsFrom(base, 2)] + free, base;
      assert Bases(regions) == [base] + old(Bases(regions));
    }

    /** Unlinks and releases the k-th region. */
    method Drop(k: nat)
      requires Loose() && k < |regions| && NoneUsed(regions[k].base, used)
      modifies this`regions, this`free, this`current, this`broken
      ensures Loose() && Bases(regions) == old(Bases(regions)[..k] + Bases(regions)[k + 1..])
      ensures broken == old(broken - {regions[k].base})
    {
      hide Holds, Tidy, Knotted, Known, NoneUsed;
      ghost var gone := regions[k].base;
      DropUnused(Bases(regions), used, k);
      NotTwice(Bases(regions), k);
      forall j | 0 <= j < |regions| && j != k ensures RegionOk(regions[j], free[j], used, broken - {gone}) {
        assert RegionOk(regions[j], free[j], used, broken);
        assert Bases(regions)[j] != Bases(regions)[k];
      }
      ghost var before := Bases(regions);
      regions, free := regions[..k] + regions[k + 1..], free[..k] + free[k + 1..];
      current, broken := NULL, broken - {gone};
      assert Bases(regions) == before[..k] + before[k + 1..];
    }

    /** detour_free_unused_trampoline_regions: exactly the regions without a used trampoline go, broken or
        not; the others stay in order. */
    method FreeUnusedRegions()
      requires Loose()
      modifies this`regions, this`free, this`current, this`broken
      ensures Loose() && Bases(regions) == Kept(old(Bases(regions)), used)
      ensures forall b :: b in broken <==> b in old(broken) && b in Bases(regions)
    {
      hide RegionOk, Kept, Known, NoneUsed, Distinct;
      var k := 0;
      ghost var all := Bases(regions);
      assert Bases(regions)[0..] == all;
      while k < |regions|
        invariant Loose() && k <= |regions| && Stage(Bases(regions), k, all, used)
        invariant forall b :: b in broken <==> b in old(broken) && b in Bases(regions)
        decreases |regions| - k
      {
        OkIsTidy(regions[k], free[k], used, broken);
        EmptyMeansUnused(regions[k], used);
        StageNext(Bases(regions), k, all, used);
        NotTwice(Bases(regions), k);
        var empty := IsRegionEmpty(regions[k]);
        hide Stage;
        if empty { Drop(k); } else { k := k + 1; }
      }
      KeptStep([], used);
      assert Bases(regions)[..k] == Bases(regions) && Bases(regions)[k..] == [];
    }
  }

  lemma KnownMore(bases: seq<nat>, used: set<nat>, slot: nat, k: nat)
    requires Known(bases, used) && k < |bases| && RegionOf(slot) == bases[k] && Usable(bases[k], slot)
    ensures Known(bases, used + {slot})
  {}

  lemma OkIsTidy(r: Region, free: seq<nat>, used: set<nat>, broken: set<nat>)
    requires RegionOk(r, free, used, broken)
    ensures Tidy(r, used)
  {}

  /** Without one element the others are left. */
  lemma NotTwice(s: seq<nat>, k: nat)
    requires Distinct(s) && k < |s|
    ensures Distinct(s[..k] + s[k + 1..])
    ensures forall x :: x in s[..k] + s[k + 1..] <==> x in s && x != s[k]
  {
    var rest := s[..k] + s[k + 1..];
    forall x | x in s && x != s[k] ensures x in rest {
      var j :| 0 <= j < |s| && s[j] == x;
      assert rest[if j < k then j else j - 1] == x;
    }
  }

  lemma PushOk(r: Region, free: seq<nat>, used: set<nat>, broken: set<nat>, slot: nat)
    requires RegionOk(r, free, used, broken) && Usable(r.base, slot)
    ensures RegionOk(Push(r, slot), [slot] + free, used - {slot}, if slot in used then broken else broken + {r.base})
  {
    hide Holds, Tidy, Knotted, Usable;
    PushTidy(r, used, slot);
    NotNull(r, used, slot);
    if r.base in broken { KnotStays(r, slot); }
    else if slot in used { PushHolds(r, free, used, slot); }
    else { FreedAgain(r, free, used, slot); }
  }

  lemma NotNull(r: Region, used: set<nat>, slot: nat)
    requires Tidy(r, used) && Usable(r.base, slot)
    ensures slot != NULL && RegionOf(slot) == r.base
  {
    UsableIsTrampoline(r.base, slot);
    SlotIsInside(r.base, slot);
  }

  lemma OthersStayOk(regions: seq<Region>, free: seq<seq<nat>>, used: set<nat>, broken: set<nat>, k: nat, slot: nat)
    requires |free| == |regions| && k < |regions| && Distinct(Bases(regions)) && Usable(regions[k].base, slot)
    requires forall j :: 0 <= j < |regions| ==> RegionOk(regions[j], free[j], used, broken)
    ensures forall j :: 0 <= j < |regions| && j != k ==>
      RegionOk(regions[j], free[j], used - {slot}, if slot in used then broken else broken + {regions[k].base})
  {
    hide Holds, Tidy, Knotted, Usable;
    forall j | 0 <= j < |regions| && j != k
      ensures RegionOk(regions[j], free[j], used - {slot}, if slot in used then broken else broken + {regions[k].base})
    {
      assert RegionOk(regions[j], free[j], used, broken) && RegionOk(regions[k], free[k], used, broken);
      assert Bases(regions)[j] != Bases(regions)[k];
      forall a | Usable(regions[j].base, a) ensures a in used <==> a in used - {slot} {
        if a == slot { NotNull(regions[j], used, a); NotNull(regions[k], used, a); }
      }
      OnlyOwnTidy(regions[j], used, used - {slot});
      if regions[j].base !in broken { OnlyOwnMatter(regions[j], free[j], used, used - {slot}); }
    }
  }

  lemma OnlyOwnTidy(r: Region, used: set<nat>, used': set<nat>)
    requires Tidy(r, used) && forall a :: Usable(r.base, a) ==> (a in used <==> a in used')
    ensures Tidy(r, used')
  {}

  /** The first k regions are looked at. */
  ghost predicate Stage(bases: seq<nat>, k: nat, all: seq<nat>, used: set<nat>) {
    k <= |bases| && bases[..k] + Kept(bases[k..], used) == Kept(all, used)
  }

  lemma StageNext(bases: seq<nat>, k: nat, all: seq<nat>, used: set<nat>)
    requires Stage(bases, k, all, used) && k < |bases|
    ensures NoneUsed(bases[k], used) ==> Stage(bases[..k] + bases[k + 1..], k, all, used)
    ensures !NoneUsed(bases[k], used) ==> Stage(bases, k + 1, all, used)
  {
    hide Kept, NoneUsed;
    KeptStep(bases[k..], used);
    assert bases[k..][1..] == bases[k + 1..];
    var rest := bases[..k] + bases[k + 1..];
    assert rest[..k] == bases[..k] && rest[k..] == bases[k + 1..];
    assert bases[..k + 1] == bases[..k] + [bases[k]];
  }

  ghost function Kept(bases: seq<nat>, used: set<nat>): seq<nat> {
    if bases == [] then [] else (if NoneUsed(bases[0], used) then [] else [bases[0]]) + Kept(bases[1..], used)
  }

  lemma KeptStep(bases: seq<nat>, used: set<nat>)
    ensures Kept(bases, used) ==
      if bases == [] then [] else (if NoneUsed(bases[0], used) then [] else [bases[0]]) + Kept(bases[1..], used)
  {}

  /** No used trampoline loses its region. */
  lemma DropUnused(bases: seq<nat>, used: set<nat>, k: nat)
    requires Known(bases, used) && k < |bases| && NoneUsed(bases[k], used)
    ensures Known(bases[..k] + bases[k + 1..], used)
  {
    hide Usable;
    var rest := bases[..k] + bases[k + 1..];
    forall a | a in used ensures RegionOf(a) in rest {
      var j :| 0 <= j < |bases| && bases[j] == RegionOf(a);
      assert j != k;
      assert rest[if j < k then j else j - 1] == RegionOf(a);
    }
  }

  lemma NotYetUsed(alloc: Allocator, base: nat)
    requires alloc.Valid() && GoodBase(base) && base !in Bases(alloc.regions)
    ensures NoneUsed(base, alloc.used)
  {
    hide Holds;
    forall a | Usable(base, a) ensures a !in alloc.used {
      UsableIsTrampoline(base, a);
      SlotIsInside(base, a);
    }
  }

  lemma RemainHolds(r: Region, free: seq<nat>, used: set<nat>, slot: nat, remain: nat)
    requires Holds(r, free, used) && Usable(r.base, slot) && slot in used && remain != NULL && !Inside(r.base, remain)
    ensures Holds(r.(remain := r.remain[slot := remain]), free, used)
  {}

  lemma KeepsOthers(regions: seq<Region>, free: seq<seq<nat>>, used: set<nat>, used': set<nat>, k: nat, slot: nat)
    requires |free| == |regions| && k < |regions| && Distinct(Bases(regions)) && Usable(regions[k].base, slot)
    requires forall j :: 0 <= j < |regions| ==> Holds(regions[j], free[j], used)
    requires forall a :: a != slot ==> (a in used <==> a in used')
    ensures forall j :: 0 <= j < |regions| && j != k ==> Holds(regions[j], free[j], used')
  {
    forall j | 0 <= j < |regions| && j != k ensures Holds(regions[j], free[j], used') {
      assert Bases(regions)[j] != Bases(regions)[k];
      forall a | Usable(regions[j].base, a) ensures a in used <==> a in used' {
        if a == slot { RegionsApart(regions[j].base, regions[k].base, a); }
      }
      OnlyOwnMatter(regions[j], free[j], used, used');
    }
  }
}
